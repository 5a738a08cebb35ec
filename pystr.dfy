/** The few Python `str` operations the scraper relies on, on `seq<char>`:
    `sep.join(parts)`, `s.strip()`, `s.split(sep)` and `s.lower()`. */
module PyStr {

  /** Characters for which Python's `str.isspace()` holds, i.e. the ones
      `str.strip()` removes when called without arguments. */
  predicate IsSpace(c: char) {
    || '\t' <= c <= '\r' || '\U{001C}' <= c <= ' '
    || c == '\U{0085}' || c == '\U{00A0}' || c == '\U{1680}' || '\U{2000}' <= c <= '\U{200A}'
    || c == '\U{2028}' || c == '\U{2029}' || c == '\U{202F}' || c == '\U{205F}' || c == '\U{3000}'
  }

  /** `sep.join(parts)`. */
  function Join(sep: string, parts: seq<string>): string
    decreases |parts|
  {
    if |parts| == 0 then ""
    else if |parts| == 1 then parts[0]
    else parts[0] + sep + Join(sep, parts[1..])
  }

  lemma JoinOne(sep: string, a: string)
    ensures Join(sep, [a]) == a
  {
  }

  lemma JoinTwo(sep: string, a: string, b: string)
    ensures Join(sep, [a, b]) == a + sep + b
  {
    assert [a, b][1..] == [b];
  }

  /** `sub` occurs in `s` starting at index `p`. */
  predicate OccursAt(s: string, sub: string, p: nat) {
    p + |sub| <= |s| && s[p..p + |sub|] == sub
  }

  /** `sub in s`. */
  predicate Contains(s: string, sub: string) {
    exists p: nat | p <= |s| :: OccursAt(s, sub, p)
  }

  /** Dropping the first character shifts every occurrence one place left. */
  lemma OccursAtTail(s: string, sub: string, p: nat)
    requires s != []
    ensures OccursAt(s[1..], sub, p) <==> OccursAt(s, sub, p + 1)
  {
    if p + 1 + |sub| <= |s| {
      assert s[1..][p..p + |sub|] == s[p + 1..p + 1 + |sub|];
    }
  }

  /** `s.lstrip()`: drops the leading whitespace and nothing else. */
  function LStrip(s: string): (r: string)
    ensures |r| <= |s| && r == s[|s| - |r|..]
    ensures r == [] || !IsSpace(r[0])
    ensures forall i :: 0 <= i < |s| - |r| ==> IsSpace(s[i])
  {
    if s != [] && IsSpace(s[0]) then LStrip(s[1..]) else s
  }

  /** `s.rstrip()`: drops the trailing whitespace and nothing else. */
  function RStrip(s: string): (r: string)
    ensures |r| <= |s| && r == s[..|r|]
    ensures r == [] || !IsSpace(r[|r| - 1])
    ensures forall i :: |r| <= i < |s| ==> IsSpace(s[i])
  {
    if s != [] && IsSpace(s[|s| - 1]) then RStrip(s[..|s| - 1]) else s
  }

  /** `s.strip()`. */
  function Strip(s: string): string {
    RStrip(LStrip(s))
  }

  /** A string that neither starts nor ends with whitespace. */
  predicate Trimmed(s: string) {
    s == [] || (!IsSpace(s[0]) && !IsSpace(s[|s| - 1]))
  }

  /** Stripping removes exactly the whitespace around a trimmed core. */
  lemma {:induction false} StripAround(s: string, ws: string)
    requires Trimmed(s)
    requires forall i :: 0 <= i < |ws| ==> IsSpace(ws[i])
    ensures Strip(s + ws) == s
  {
    if s == [] {
      assert LStrip(ws) == [] by { LStripAllSpace(ws); }
    } else {
      assert LStrip(s + ws) == s + ws;
      RStripTail(s, ws);
    }
  }

  lemma {:induction false} LStripAllSpace(ws: string)
    requires forall i :: 0 <= i < |ws| ==> IsSpace(ws[i])
    ensures LStrip(ws) == []
  {
  }

  lemma {:induction false} RStripTail(s: string, ws: string)
    requires s != [] && !IsSpace(s[|s| - 1])
    requires forall i :: 0 <= i < |ws| ==> IsSpace(ws[i])
    ensures RStrip(s + ws) == s
    decreases |ws|
  {
    if ws == [] {
      assert s + ws == s;
    } else {
      var w := ws[..|ws| - 1];
      assert (s + ws)[..|s + ws| - 1] == s + w;
      RStripTail(s, w);
    }
  }

  /** `s.split(sep)` for a non-empty separator: the pieces between the
      non-overlapping occurrences of `sep`, found from the left. */
  function Split(s: string, sep: string): (parts: seq<string>)
    requires sep != []
    ensures |parts| >= 1
    decreases |s|
  {
    if |s| < |sep| then [s]
    else if s[..|sep|] == sep then [""] + Split(s[|sep|..], sep)
    else
      var rest := Split(s[1..], sep);
      [[s[0]] + rest[0]] + rest[1..]
  }

  /** Joining a first piece in front of at least one more. */
  lemma JoinCons(sep: string, a: string, rest: seq<string>)
    requires rest != []
    ensures Join(sep, [a] + rest) == a + sep + Join(sep, rest)
  {
    assert ([a] + rest)[1..] == rest;
  }

  /** Growing the first piece by one character grows the joined string
      by that character in front. */
  lemma JoinGrowHead(sep: string, c: char, rest: seq<string>)
    requires rest != []
    ensures Join(sep, [[c] + rest[0]] + rest[1..]) == [c] + Join(sep, rest)
  {
    if |rest| == 1 {
      assert rest == [rest[0]];
      assert [[c] + rest[0]] + rest[1..] == [[c] + rest[0]];
    } else {
      assert rest == [rest[0]] + rest[1..];
      JoinCons(sep, [c] + rest[0], rest[1..]);
      JoinCons(sep, rest[0], rest[1..]);
      assert [c] + rest[0] + sep + Join(sep, rest[1..]) == [c] + (rest[0] + sep + Join(sep, rest[1..]));
    }
  }

  /** Splitting undoes nothing that joining put together: the pieces of a
      split, joined back with the separator, give the original string. */
  lemma {:induction false} JoinSplit(s: string, sep: string)
    requires sep != []
    ensures Join(sep, Split(s, sep)) == s
    decreases |s|
  {
    if |s| < |sep| {
    } else if s[..|sep|] == sep {
      JoinSplit(s[|sep|..], sep);
      JoinCons(sep, "", Split(s[|sep|..], sep));
      assert s == "" + sep + s[|sep|..];
    } else {
      JoinSplit(s[1..], sep);
      JoinGrowHead(sep, s[0], Split(s[1..], sep));
      assert s == [s[0]] + s[1..];
    }
  }

  /** A string without the separator is a single piece. */
  lemma {:induction false} SplitWithout(s: string, sep: string)
    requires sep != [] && !Contains(s, sep)
    ensures Split(s, sep) == [s]
    decreases |s|
  {
    if |s| >= |sep| {
      assert !OccursAt(s, sep, 0);
      assert !Contains(s[1..], sep) by {
        forall p: nat
          ensures !OccursAt(s[1..], sep, p)
        {
          OccursAtTail(s, sep, p);
        }
      }
      SplitWithout(s[1..], sep);
      assert [s[0]] + s[1..] == s;
    }
  }

  /** No occurrence of `sep` in `a + sep` begins inside `a`. */
  predicate NoSeparatorBefore(a: string, sep: string) {
    forall p: nat :: p < |a| ==> !OccursAt(a + sep, sep, p)
  }

  /** The first piece of `a + sep + b` is `a` when `sep` occurs nowhere
      before the one placed after `a`. */
  lemma {:induction false} SplitAfter(a: string, sep: string, b: string)
    requires sep != [] && NoSeparatorBefore(a, sep)
    ensures Split(a + sep + b, sep) == [a] + Split(b, sep)
    decreases |a|
  {
    var s := a + sep + b;
    if a == [] {
      assert s[..|sep|] == sep;
      assert s[|sep|..] == b;
    } else {
      assert !OccursAt(a + sep, sep, 0);
      assert s[..|sep|] == (a + sep)[0..|sep|];
      assert NoSeparatorBefore(a[1..], sep) by {
        forall p: nat | p < |a[1..]|
          ensures !OccursAt(a[1..] + sep, sep, p)
        {
          assert (a + sep)[1..] == a[1..] + sep;
          OccursAtTail(a + sep, sep, p);
        }
      }
      assert s[1..] == a[1..] + sep + b;
      SplitAfter(a[1..], sep, b);
      assert [a[0]] + a[1..] == a;
    }
  }

  /** For the separator ", ", containing no ", " is enough: the separator
      starts with ',' and ends with ' ', so no occurrence can straddle. */
  lemma CommaSpaceCannotStraddle(a: string)
    requires !Contains(a, ", ")
    ensures NoSeparatorBefore(a, ", ")
  {
    forall p: nat | p < |a|
      ensures !OccursAt(a + ", ", ", ", p)
    {
      if p + 2 <= |a| {
        assert (a + ", ")[p..p + 2] == a[p..p + 2];
        assert !OccursAt(a, ", ", p);
      } else {
        assert (a + ", ")[p + 1] == ',';
      }
    }
  }

  /** `c.lower()` on the ASCII letters; every other character is kept. */
  function LowerChar(c: char): (r: char)
    ensures 'A' <= c <= 'Z' ==> r as int == c as int + 32
    ensures !('A' <= c <= 'Z') ==> r == c
  {
    if 'A' <= c <= 'Z' then (c as int - 'A' as int + 'a' as int) as char else c
  }

  /** `s.lower()`. */
  function Lower(s: string): (r: string)
    ensures |r| == |s|
  {
    if s == [] then [] else Lower(s[..|s| - 1]) + [LowerChar(s[|s| - 1])]
  }

  /** Lower-casing is idempotent: a folded key folds to itself. */
  lemma {:induction false} LowerIdempotent(s: string)
    ensures Lower(Lower(s)) == Lower(s)
  {
    if s != [] {
      var init := s[..|s| - 1];
      LowerIdempotent(init);
      var l := Lower(s);
      assert l[..|l| - 1] == Lower(init);
    }
  }
}
