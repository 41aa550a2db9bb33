/** Small data types and text operations shared by the whole project. */
module Common {

  datatype Option<+T> = None | Some(value: T) {
    function GetOr(default: T): T {
      if Some? then value else default
    }
  }

  datatype Result<+T> = Ok(value: T) | Err(error: string)

  predicate Before<T(==)>(s: seq<T>, x: T, y: T) {
    exists p, q | 0 <= p < q < |s| :: s[p] == x && s[q] == y
  }

  /** The elements of `part` stand in `whole` in the same order. */
  predicate InOrderOf<T(==)>(part: seq<T>, whole: seq<T>) {
    && (forall k | 0 <= k < |part| :: part[k] in whole)
    && forall i, j | 0 <= i < j < |part| :: Before(whole, part[i], part[j])
  }

  lemma {:induction false} InOrderBehind<T>(x: T, part: seq<T>, whole: seq<T>)
    requires InOrderOf(part, whole)
    ensures InOrderOf(part, [x] + whole) && InOrderOf([x] + part, [x] + whole)
  {
    var longer, more := [x] + whole, [x] + part;
    forall y, z | Before(whole, y, z) ensures Before(longer, y, z) {
      var p, q :| 0 <= p < q < |whole| && whole[p] == y && whole[q] == z;
      assert longer[p + 1] == y && longer[q + 1] == z;
    }
    forall z | z in whole ensures Before(longer, x, z) && z in longer {
      var q :| 0 <= q < |whole| && whole[q] == z;
      assert longer[0] == x && longer[q + 1] == z;
    }
    forall i, j | 0 <= i < j < |more| ensures Before(longer, more[i], more[j]) {
      if i == 0 {
        assert more[j] == part[j - 1];
      } else {
        assert Before(whole, part[i - 1], part[j - 1]);
      }
    }
    assert forall k :: 0 < k < |more| ==> more[k] == part[k - 1];
    assert longer[0] == x;
  }

  /** The elements for which `f` holds, in their order. */
  function Filter<T>(f: T -> bool, s: seq<T>): (r: seq<T>)
    ensures |r| <= |s|
  {
    if s == [] then []
    else if f(s[|s| - 1]) then Filter(f, s[..|s| - 1]) + [s[|s| - 1]]
    else Filter(f, s[..|s| - 1])
  }

  lemma {:induction false} FilterFirst<T>(f: T -> bool, s: seq<T>)
    requires s != []
    ensures Filter(f, s) == (if f(s[0]) then [s[0]] else []) + Filter(f, s[1..])
  {
    if |s| > 1 {
      var front := s[..|s| - 1];
      FilterFirst(f, front);
      assert front[1..] == s[1..][..|s[1..]| - 1] && s[1..][|s[1..]| - 1] == s[|s| - 1];
    } else {
      assert s[..0] == [] && s[1..] == [];
    }
  }

  lemma {:induction false} FilterConcat<T>(f: T -> bool, a: seq<T>, b: seq<T>)
    ensures Filter(f, a + b) == Filter(f, a) + Filter(f, b)
  {
    if b == [] {
      assert a + b == a;
    } else {
      assert (a + b)[..|a + b| - 1] == a + b[..|b| - 1];
      FilterConcat(f, a, b[..|b| - 1]);
    }
  }

  lemma {:induction false} FilterAllOrNone<T>(f: T -> bool, s: seq<T>, all: bool)
    requires forall x :: x in s ==> f(x) == all
    ensures Filter(f, s) == if all then s else []
  {
    if s != [] {
      assert s[|s| - 1] in s && s == s[..|s| - 1] + [s[|s| - 1]];
      FilterAllOrNone(f, s[..|s| - 1], all);
    }
  }

  lemma {:induction false} FilterHolds<T>(f: T -> bool, s: seq<T>)
    ensures forall x :: x in Filter(f, s) <==> x in s && f(x)
  {
    if s != [] {
      FilterHolds(f, s[..|s| - 1]);
      assert s == s[..|s| - 1] + [s[|s| - 1]];
    }
  }
}

/** The text operations the code under study takes from its host languages:
    `in`, `rfind`, `startswith` and `replace` of Python strings. */
module Text {

  predicate OccursAt(p: string, s: string, i: int) {
    0 <= i <= |s| - |p| && s[i..i + |p|] == p
  }

  predicate Contains(s: string, p: string) {
    exists i | 0 <= i <= |s| - |p| :: OccursAt(p, s, i)
  }

  /** `s.rfind(c)` for a single character. */
  function LastIndexOf(s: string, c: char): (r: int)
    ensures -1 <= r < |s|
    ensures r >= 0 ==> s[r] == c
    ensures forall k :: r < k < |s| ==> s[k] != c
  {
    if s == "" then -1
    else if s[|s| - 1] == c then |s| - 1
    else LastIndexOf(s[..|s| - 1], c)
  }

  /** `s.replace(p, r)` for a nonempty `p`: leftmost matches, never overlapping,
      the replacement is not scanned again. */
  function Replace(s: string, p: string, r: string): string
    requires p != ""
  {
    if s == "" then ""
    else if p <= s then r + Replace(s[|p|..], p, r)
    else [s[0]] + Replace(s[1..], p, r)
  }

  /** No match of `p` in `a + b` begins in `a` and ends in `b`. */
  ghost predicate NoStraddle(a: string, b: string, p: string) {
    forall i :: 0 <= i < |a| < i + |p| ==> !OccursAt(p, a + b, i)
  }

  lemma {:induction false} NoStraddleSuffix(a: string, b: string, p: string, n: nat)
    requires n <= |a| && NoStraddle(a, b, p)
    ensures NoStraddle(a[n..], b, p)
  {
    forall i | 0 <= i < |a[n..]| < i + |p| ensures !OccursAt(p, a[n..] + b, i) {
      if OccursAt(p, a[n..] + b, i) {
        assert (a[n..] + b)[i..i + |p|] == (a + b)[n + i..n + i + |p|];
        assert OccursAt(p, a + b, n + i);
      }
    }
  }

  lemma {:induction false} NoStraddleHead(a: string, b: string, p: string)
    requires p != "" && a != "" && NoStraddle(a, b, p)
    ensures p <= a + b <==> p <= a
  {
    if p <= a + b {
      assert (a + b)[0..|p|] == p;
      assert OccursAt(p, a + b, 0);
      assert (a + b)[..|p|] == a[..|p|];
    }
  }

  /** Replacement distributes over a concatenation that cuts no match in two. */
  lemma {:induction false} ReplaceConcat(a: string, b: string, p: string, r: string)
    requires p != "" && NoStraddle(a, b, p)
    ensures Replace(a + b, p, r) == Replace(a, p, r) + Replace(b, p, r)
    decreases |a|
  {
    if a == "" {
      assert a + b == b;
    } else {
      NoStraddleHead(a, b, p);
      var n := if p <= a then |p| else 1;
      assert (a + b)[n..] == a[n..] + b;
      NoStraddleSuffix(a, b, p, n);
      ReplaceConcat(a[n..], b, p, r);
      var head := if p <= a then r else [a[0]];
      assert Replace(a + b, p, r) == head + Replace(a[n..] + b, p, r);
      assert Replace(a, p, r) == head + Replace(a[n..], p, r);
      assert head + (Replace(a[n..], p, r) + Replace(b, p, r)) == head + Replace(a[n..], p, r) + Replace(b, p, r);
    }
  }

  lemma {:induction false} ReplaceAbsent(s: string, p: string, r: string)
    requires p != "" && !Contains(s, p)
    ensures Replace(s, p, r) == s
  {
    if s != "" {
      if p <= s {
        assert OccursAt(p, s, 0);
      }
      if Contains(s[1..], p) {
        var i :| 0 <= i <= |s[1..]| - |p| && OccursAt(p, s[1..], i);
        assert OccursAt(p, s, i + 1);
      }
      ReplaceAbsent(s[1..], p, r);
    }
  }

  lemma {:induction false} ContainsConcat(a: string, b: string, p: string)
    requires NoStraddle(a, b, p) && p != ""
    ensures Contains(a + b, p) <==> Contains(a, p) || Contains(b, p)
  {
    if Contains(a, p) {
      var i :| 0 <= i <= |a| - |p| && OccursAt(p, a, i);
      assert OccursAt(p, a + b, i);
    }
    if Contains(b, p) {
      var i :| 0 <= i <= |b| - |p| && OccursAt(p, b, i);
      assert (a + b)[|a| + i..|a| + i + |p|] == b[i..i + |p|];
      assert OccursAt(p, a + b, |a| + i);
    }
    if Contains(a + b, p) {
      var i :| 0 <= i <= |a + b| - |p| && OccursAt(p, a + b, i);
      if i + |p| <= |a| {
        assert (a + b)[i..i + |p|] == a[i..i + |p|];
        assert OccursAt(p, a, i);
      } else if i >= |a| {
        assert (a + b)[i..i + |p|] == b[i - |a|..i - |a| + |p|];
        assert OccursAt(p, b, i - |a|);
      }
    }
  }

  /** Replacing one character by a text without it leaves none, and replacing
      again after appending is the same as replacing once at the end. */
  lemma {:induction false} ReplaceCharGone(s: string, c: char, r: string)
    requires c !in r
    ensures c !in Replace(s, [c], r)
  {
    if s != "" {
      if [c] <= s {
        ReplaceCharGone(s[1..], c, r);
      } else {
        assert s[0] != c;
        ReplaceCharGone(s[1..], c, r);
      }
    }
  }

  lemma {:induction false} CharAbsent(s: string, c: char)
    requires c !in s
    ensures !Contains(s, [c])
  {
    forall i | 0 <= i < |s| ensures !OccursAt([c], s, i) {
      assert s[i..i + 1] == [s[i]];
    }
  }

  lemma {:induction false} ReplaceCharIncremental(s: string, t: string, c: char, r: string)
    requires c !in r
    ensures Replace(Replace(s, [c], r) + t, [c], r) == Replace(s + t, [c], r)
  {
    var done := Replace(s, [c], r);
    ReplaceCharGone(s, c, r);
    CharAbsent(done, c);
    ReplaceAbsent(done, [c], r);
    ReplaceConcat(done, t, [c], r);
    ReplaceConcat(s, t, [c], r);
  }

  /** If `c` stands only at the head of `p`, a start of `p` left dangling at the end
      of `s` begins at the last `c` of `s`. */
  lemma {:induction false} DanglingStart(s: string, k: nat, p: string, c: char)
    requires k < |s| && s[k..] < p && p[0] == c && forall j :: 0 < j < |p| ==> p[j] != c
    ensures LastIndexOf(s, c) == k && Contains(p, s[k..])
  {
    var tail := s[k..];
    assert forall j :: 0 <= j < |tail| ==> tail[j] == p[j];
    assert s[k] == tail[0];
    forall j | k < j < |s| ensures s[j] != c {
      assert s[j] == tail[j - k];
    }
    assert p[0..0 + |tail|] == tail;
    assert OccursAt(tail, p, 0);
  }

  lemma {:induction false} NotHere(p: string, s: string, j: nat, k: nat)
    requires k < |p| && j + k < |s| && s[j + k] != p[k]
    ensures !OccursAt(p, s, j)
  {
    if j <= |s| - |p| {
      assert s[j..j + |p|][k] == s[j + k];
    }
  }

  function Count(s: string, c: char): nat {
    multiset(s)[c]
  }

  lemma {:induction false} CountConcat(a: string, b: string, c: char)
    ensures Count(a + b, c) == Count(a, c) + Count(b, c)
  {
  }

  /** Removing a text without `c` keeps every `c`. */
  lemma {:induction false} RemoveKeepsCount(s: string, p: string, c: char)
    requires p != "" && c !in p
    ensures Count(Replace(s, p, ""), c) == Count(s, c)
  {
    hide Count;
    if s != "" {
      if p <= s {
        RemoveKeepsCount(s[|p|..], p, c);
        assert s == p + s[|p|..];
        CountConcat(p, s[|p|..], c);
        CountAbsent(p, c);
        assert "" + Replace(s[|p|..], p, "") == Replace(s[|p|..], p, "");
      } else {
        RemoveKeepsCount(s[1..], p, c);
        assert s == [s[0]] + s[1..];
        CountConcat([s[0]], s[1..], c);
        CountConcat([s[0]], Replace(s[1..], p, ""), c);
      }
    } else {
      CountAbsent("", c);
    }
  }

  lemma {:induction false} CountAbsent(s: string, c: char)
    requires c !in s
    ensures Count(s, c) == 0
  {
  }
}
