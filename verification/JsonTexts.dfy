/** What the scanner finds in any text of characters and strings, well formed or not. */
module JsonTexts {
  import opened Common
  import opened JsonScanner

  /** A character outside of strings, or a whole string as the printer prints it. */
  datatype Token = Plain(c: char) | Quoted(s: string)

  predicate TokensOk(tokens: seq<Token>) {
    forall t | t in tokens :: t.Plain? ==> t.c != '"'
  }

  function TokenText(t: Token): string {
    match t
    case Plain(c) => [c]
    case Quoted(s) => PrintString(s)
  }

  function TextOf(tokens: seq<Token>): string {
    if tokens == [] then "" else TokenText(tokens[0]) + TextOf(tokens[1..])
  }

  /** Brackets of the kind the fragment opened with count, no others, and none in strings. */
  function Weight(open: char, t: Token): int {
    if t.Quoted? then 0
    else if t.c == open then 1
    else if t.c == (if open == '{' then '}' else ']') then -1
    else 0
  }

  /** How many more brackets were opened than closed. */
  function Balance(open: char, tokens: seq<Token>): int {
    if tokens == [] then 0 else Weight(open, tokens[0]) + Balance(open, tokens[1..])
  }

  /** The first `n` tokens are the first that close all they open. */
  predicate ClosesAt(open: char, d: int, tokens: seq<Token>, n: int) {
    && 0 < n <= |tokens| && d + Balance(open, tokens[..n]) == 0
    && forall j | 0 < j < n :: d + Balance(open, tokens[..j]) != 0
  }

  lemma {:induction false} BalanceFirst(open: char, tokens: seq<Token>, n: int)
    requires 0 < n <= |tokens|
    ensures Balance(open, tokens[..n]) == Weight(open, tokens[0]) + Balance(open, tokens[1..][..n - 1])
    ensures TextOf(tokens[..n]) == TokenText(tokens[0]) + TextOf(tokens[1..][..n - 1])
  {
    assert tokens[..n][1..] == tokens[1..][..n - 1];
  }

  /** One token inside a fragment. */
  lemma {:induction false} OneToken(open: char, d: int, t: Token, rest: string)
    requires (open == '{' || open == '[') && d >= 1 && TokensOk([t])
    ensures Scan(BracketsOf(open), Cursor(d, false, false), TokenText(t) + rest) ==
            if d + Weight(open, t) == 0 then Some(1)
            else Later(|TokenText(t)|, Scan(BracketsOf(open), Cursor(d + Weight(open, t), false, false), rest))
  {
    hide Scan, PrintString;
    assert t in [t];
    match t {
      case Plain(c) => ScanHead(BracketsOf(open), Cursor(d, false, false), c, rest);
      case Quoted(s) => StringScan(BracketsOf(open), d, s, rest);
    }
  }

  lemma {:induction false} ScanCloses(open: char, d: int, tokens: seq<Token>, n: int)
    requires (open == '{' || open == '[') && d >= 1 && TokensOk(tokens) && ClosesAt(open, d, tokens, n)
    ensures Scan(BracketsOf(open), Cursor(d, false, false), TextOf(tokens)) == Some(|TextOf(tokens[..n])|)
    decreases |tokens|
  {
    hide Scan, Weight, TokenText, Balance;
    var t, more := tokens[0], tokens[1..];
    assert t in tokens && forall x :: x in more ==> x in tokens;
    OneToken(open, d, t, TextOf(more));
    if d + Weight(open, t) == 0 {
      FirstCloses(open, d, tokens);
    } else {
      WeightIsSmall(open, t);
      ClosesLater(open, d, tokens, n);
      ScanCloses(open, d + Weight(open, t), more, n - 1);
      BalanceFirst(open, tokens, n);
    }
  }

  lemma {:induction false} ScanOpen(open: char, d: int, tokens: seq<Token>)
    requires (open == '{' || open == '[') && d >= 1 && TokensOk(tokens) && forall n :: !ClosesAt(open, d, tokens, n)
    ensures Scan(BracketsOf(open), Cursor(d, false, false), TextOf(tokens)).None?
    decreases |tokens|
  {
    hide Scan, Weight, TokenText, Balance, ClosesAt;
    if tokens == [] {
      NothingToScan(BracketsOf(open), Cursor(d, false, false));
    } else {
      var t, more := tokens[0], tokens[1..];
      assert t in tokens && forall x :: x in more ==> x in tokens;
      OneToken(open, d, t, TextOf(more));
      if d + Weight(open, t) == 0 {
        assert !ClosesAt(open, d, tokens, 1);
        FirstCloses(open, d, tokens);
      } else {
        WeightIsSmall(open, t);
        StillOpen(open, d, tokens, d + Weight(open, t));
        ScanOpen(open, d + Weight(open, t), more);
      }
    }
  }

  lemma {:induction false} StillOpen(open: char, d: int, tokens: seq<Token>, e: int)
    requires tokens != [] && e == d + Weight(open, tokens[0]) != 0 && forall n :: !ClosesAt(open, d, tokens, n)
    ensures forall n :: !ClosesAt(open, e, tokens[1..], n)
  {
    hide Weight, Balance, ClosesAt;
    forall n ensures !ClosesAt(open, e, tokens[1..], n) {
      NotLater(open, d, tokens, e, n);
    }
  }

  lemma {:induction false} NotLater(open: char, d: int, tokens: seq<Token>, e: int, n: int)
    requires tokens != [] && e == d + Weight(open, tokens[0]) != 0 && !ClosesAt(open, d, tokens, n + 1)
    ensures !ClosesAt(open, e, tokens[1..], n)
  {
    hide Weight, Balance;
    ClosesLater(open, d, tokens, n + 1);
    assert (n + 1) - 1 == n;
  }

  lemma {:induction false} NothingToScan(k: Brackets, s: Cursor)
    ensures Scan(k, s, "").None?
  {
  }

  lemma {:induction false} WeightIsSmall(open: char, t: Token)
    ensures -1 <= Weight(open, t) <= 1
  {
  }

  lemma {:induction false} FirstCloses(open: char, d: int, tokens: seq<Token>)
    requires tokens != [] && d + Weight(open, tokens[0]) == 0 && d >= 1
    ensures forall n :: ClosesAt(open, d, tokens, n) <==> n == 1
    ensures |TextOf(tokens[..1])| == 1
  {
    BalanceFirst(open, tokens, 1);
    assert d + Balance(open, tokens[..1]) == 0;
  }

  lemma {:induction false} ClosesLater(open: char, d: int, tokens: seq<Token>, n: int)
    requires tokens != [] && d + Weight(open, tokens[0]) != 0
    ensures ClosesAt(open, d, tokens, n) <==> n > 1 && ClosesAt(open, d + Weight(open, tokens[0]), tokens[1..], n - 1)
  {
    hide Balance, Weight, TextOf;
    var e, more := d + Weight(open, tokens[0]), tokens[1..];
    BalanceOfNone(open, more);
    if 0 < n <= |tokens| {
      forall j | 0 < j <= n ensures d + Balance(open, tokens[..j]) == e + Balance(open, more[..j - 1]) {
        BalanceFirst(open, tokens, j);
      }
      if n == 1 {
        assert d + Balance(open, tokens[..1]) == e + Balance(open, more[..0]);
      } else if ClosesAt(open, e, more, n - 1) {
        forall j | 0 < j < n ensures d + Balance(open, tokens[..j]) != 0 {
          assert j > 1 ==> e + Balance(open, more[..j - 1]) != 0;
        }
      } else if ClosesAt(open, d, tokens, n) {
        forall j | 0 < j < n - 1 ensures e + Balance(open, more[..j]) != 0 {
          assert d + Balance(open, tokens[..j + 1]) != 0;
        }
      }
    }
  }

  lemma {:induction false} BalanceOfNone(open: char, tokens: seq<Token>)
    ensures Balance(open, tokens[..0]) == 0
  {
  }

  lemma {:induction false} FoundFrom(prefix: string, tokens: seq<Token>)
    requires TokensOk(tokens) && tokens != [] && (tokens[0] == Plain('{') || tokens[0] == Plain('['))
    requires forall c :: c in prefix ==> c != '{' && c != '['
    ensures var n, text := Scan(BracketsOf(tokens[0].c), Cursor(1, false, false), TextOf(tokens[1..])), TextOf(tokens);
            && (n.None? ==> FirstFragment(prefix + text) == None)
            && (n.Some? ==> 1 + n.value <= |text| && FirstFragment(prefix + text) == Some(JsonScanner.Strip(text[..1 + n.value])))
  {
    hide Scan, Weight, TextOf, FirstBracket, JsonScanner.Strip;
    var text := TextOf(tokens);
    Opens(tokens);
    BracketAfter(prefix, text);
    assert (prefix + text)[|prefix|..] == text;
    forall n | 0 <= n <= |text| ensures (prefix + text)[|prefix|..|prefix| + n] == text[..n] {
    }
  }

  /** For every text behind one without an opening bracket: the fragment found is the shortest
      part from that bracket on that closes as many of its kind as it opens, whatever other
      brackets and strings it holds; and if there is none, nothing is found. */
  lemma {:induction false} FindsBalanced(prefix: string, tokens: seq<Token>)
    requires TokensOk(tokens) && tokens != [] && (tokens[0] == Plain('{') || tokens[0] == Plain('['))
    requires forall c :: c in prefix ==> c != '{' && c != '['
    ensures forall n :: ClosesAt(tokens[0].c, 0, tokens, n) ==> FirstFragment(prefix + TextOf(tokens)) == Some(TextOf(tokens[..n]))
    ensures (forall n :: !ClosesAt(tokens[0].c, 0, tokens, n)) ==> FirstFragment(prefix + TextOf(tokens)) == None
  {
    hide Scan, Weight, TextOf, JsonScanner.Strip, FirstFragment, TokensOk;
    FoundFrom(prefix, tokens);
    forall n | ClosesAt(tokens[0].c, 0, tokens, n) ensures FirstFragment(prefix + TextOf(tokens)) == Some(TextOf(tokens[..n])) {
      FoundBalanced(prefix, tokens, n);
    }
    if forall n :: !ClosesAt(tokens[0].c, 0, tokens, n) {
      Opens(tokens);
      StillOpen(tokens[0].c, 0, tokens, 1);
      RestOk(tokens);
      ScanOpen(tokens[0].c, 1, tokens[1..]);
    }
  }

  lemma {:induction false} RestOk(tokens: seq<Token>)
    requires TokensOk(tokens) && tokens != []
    ensures TokensOk(tokens[1..])
  {
  }

  lemma {:induction false} FoundBalanced(prefix: string, tokens: seq<Token>, n: int)
    requires TokensOk(tokens) && tokens != [] && (tokens[0] == Plain('{') || tokens[0] == Plain('['))
    requires (forall c :: c in prefix ==> c != '{' && c != '[') && ClosesAt(tokens[0].c, 0, tokens, n)
    ensures FirstFragment(prefix + TextOf(tokens)) == Some(TextOf(tokens[..n]))
  {
    hide Scan, Weight, TextOf, JsonScanner.Strip, FirstFragment, TokensOk, Balance;
    var open := tokens[0].c;
    FoundFrom(prefix, tokens);
    Opens(tokens);
    ClosesLater(open, 0, tokens, n);
    RestOk(tokens);
    ScanCloses(open, 1, tokens[1..], n - 1);
    BalanceFirst(open, tokens, n);
    Closing(open, tokens, n);
    assert TextOf(tokens)[..|TextOf(tokens[..n])|] == TextOf(tokens[..n]);
  }

  lemma {:induction false} Opens(tokens: seq<Token>)
    requires tokens != [] && (tokens[0] == Plain('{') || tokens[0] == Plain('['))
    ensures TextOf(tokens) == [tokens[0].c] + TextOf(tokens[1..])
    ensures Weight(tokens[0].c, tokens[0]) == 1
    ensures Scan(BracketsOf(tokens[0].c), OUTSIDE, TextOf(tokens)) ==
            Later(1, Scan(BracketsOf(tokens[0].c), Cursor(1, false, false), TextOf(tokens[1..])))
  {
    hide Scan;
    ScanHead(BracketsOf(tokens[0].c), OUTSIDE, tokens[0].c, TextOf(tokens[1..]));
  }

  lemma {:induction false} TextConcat(a: seq<Token>, b: seq<Token>)
    ensures TextOf(a + b) == TextOf(a) + TextOf(b)
    ensures forall open :: Balance(open, a + b) == Balance(open, a) + Balance(open, b)
  {
    hide TokenText, Weight;
    if a == [] {
      assert a + b == b;
    } else {
      assert (a + b)[1..] == a[1..] + b;
      TextConcat(a[1..], b);
    }
  }

  /** A balanced part ends in its closing bracket, and has no blanks at its ends. */
  lemma {:induction false} Closing(open: char, tokens: seq<Token>, n: int)
    requires (open == '{' || open == '[') && tokens != [] && tokens[0] == Plain(open) && ClosesAt(open, 0, tokens, n)
    ensures TextOf(tokens[..n]) <= TextOf(tokens) && JsonScanner.Strip(TextOf(tokens[..n])) == TextOf(tokens[..n])
  {
    hide TextOf, Balance;
    var part, front, last := tokens[..n], tokens[..n - 1], tokens[n - 1];
    assert tokens == part + tokens[n..] && part == front + [last];
    TextConcat(part, tokens[n..]);
    TextConcat(front, [last]);
    FirstAndOnly(open, tokens, n);
    LastCloses(open, tokens, n);
    assert TextOf(part)[0] == open && TextOf(part)[|TextOf(part)| - 1] == last.c;
  }

  lemma {:induction false} FirstAndOnly(open: char, tokens: seq<Token>, n: int)
    requires tokens != [] && tokens[0] == Plain(open) && 0 < n <= |tokens|
    ensures TextOf(tokens[..n]) != "" && TextOf(tokens[..n])[0] == open
    ensures tokens[n - 1].Plain? ==> TextOf([tokens[n - 1]]) == [tokens[n - 1].c]
  {
    BalanceFirst(open, tokens, n);
    assert [tokens[n - 1]][1..] == [];
  }

  lemma {:induction false} LastCloses(open: char, tokens: seq<Token>, n: int)
    requires (open == '{' || open == '[') && tokens != [] && tokens[0] == Plain(open) && ClosesAt(open, 0, tokens, n)
    ensures tokens[n - 1] == Plain(if open == '{' then '}' else ']')
  {
    hide TextOf;
    var front, last := tokens[..n - 1], tokens[n - 1];
    assert tokens[..n] == front + [last];
    TextConcat(front, [last]);
    assert [last][1..] == [] && Balance(open, [last]) == Weight(open, last);
    BalanceFirst(open, tokens, 1);
    StaysOpen(open, tokens, n - 1);
  }

  /** Before it is closed, more is open than closed. */
  lemma {:induction false} StaysOpen(open: char, tokens: seq<Token>, j: nat)
    requires tokens != [] && tokens[0] == Plain(open) && j <= |tokens| && forall i :: 0 < i <= j ==> Balance(open, tokens[..i]) != 0
    ensures j > 0 ==> Balance(open, tokens[..j]) > 0
  {
    hide Balance, TextOf;
    if j == 1 {
      BalanceFirst(open, tokens, 1);
      BalanceOfNone(open, tokens[1..]);
    } else if j > 1 {
      StaysOpen(open, tokens, j - 1);
      assert tokens[..j] == tokens[..j - 1] + [tokens[j - 1]];
      TextConcat(tokens[..j - 1], [tokens[j - 1]]);
      OneWeight(open, tokens[j - 1]);
      WeightIsSmall(open, tokens[j - 1]);
    }
  }

  lemma {:induction false} OneWeight(open: char, t: Token)
    ensures Balance(open, [t]) == Weight(open, t)
  {
    assert [t][1..] == [];
  }
}
