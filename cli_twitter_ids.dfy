/** The `twitter scrape ids` command of `scraper/cli/twitter.py`, which
    prints one `id, username` line per collected tweet, and the line split
    of `twitter scrape hydrate`, which reads such a line back. */
module TwitterIds {
  import opened Wrappers
  import opened PyStr
  import opened Scraper

  /** `'{0}, {1}'.format(id_, username)`. */
  function IdLine(id: string, username: string): string {
    id + ", " + username
  }

  /** `id_, username = value.strip().split(', ')`: `None` when the split
      does not give exactly two pieces, where the unpacking raises
      `ValueError`. The two pieces, joined back with `", "`, are the
      stripped line. */
  function ParseIdLine(value: string): (r: Option<(string, string)>)
    ensures r.Some? ==> r.value.0 + ", " + r.value.1 == Strip(value)
    ensures r.Some? ==> Split(Strip(value), ", ") == [r.value.0, r.value.1]
    ensures r.None? <==> |Split(Strip(value), ", ")| != 2
  {
    var parts := Split(Strip(value), ", ");
    if |parts| == 2 then
      JoinSplit(Strip(value), ", ");
      JoinTwo(", ", parts[0], parts[1]);
      assert parts == [parts[0], parts[1]];
      Some((parts[0], parts[1]))
    else None
  }

  /** What `hydrate` may read back: neither field holds `", "` or a line
      break, the id does not start with whitespace and the username is
      not empty and does not end with whitespace. */
  predicate Readable(id: string, username: string) {
    && !Contains(id, ", ") && !Contains(username, ", ")
    && '\n' !in id && '\r' !in id && '\n' !in username && '\r' !in username
    && (id == [] || !IsSpace(id[0]))
    && username != [] && !IsSpace(username[|username| - 1])
  }

  /** A line printed by `ids`, newline included, is split by `hydrate`
      into the id and username it was printed from. */
  lemma IdLineRoundTrip(id: string, username: string)
    requires Readable(id, username)
    ensures ParseIdLine(IdLine(id, username) + "\n") == Some((id, username))
  {
    StripIdLine(id, username);
    SplitIdLine(id, username);
  }

  /** The newline and nothing else is stripped from a printed line. */
  lemma StripIdLine(id: string, username: string)
    requires (id == [] || !IsSpace(id[0])) && username != [] && !IsSpace(username[|username| - 1])
    ensures Strip(IdLine(id, username) + "\n") == IdLine(id, username)
  {
    var line := IdLine(id, username);
    assert line[|line| - 1] == username[|username| - 1];
    assert line[0] == if id == [] then ',' else id[0];
    StripAround(line, "\n");
  }

  /** A printed line splits at its one `", "`. */
  lemma SplitIdLine(id: string, username: string)
    requires !Contains(id, ", ") && !Contains(username, ", ")
    ensures Split(IdLine(id, username), ", ") == [id, username]
  {
    CommaSpaceCannotStraddle(id);
    SplitAfter(id, ", ", username);
    SplitWithout(username, ", ");
  }

  /** An empty username does not survive: `"1, \n"` strips to `"1,"`,
      which splits into one piece. */
  lemma EmptyUsernameIsUnreadable()
    ensures ParseIdLine(IdLine("1", "") + "\n") == None
  {
    assert Strip(IdLine("1", "") + "\n") == "1," by {
      assert IdLine("1", "") + "\n" == "1," + " \n";
      RStripTail("1,", " \n");
    }
    assert Split("1,", ", ") == ["1,"] by {
      assert !Contains("1,", ", ") by {
        assert !OccursAt("1,", ", ", 0);
      }
      SplitWithout("1,", ", ");
    }
  }

  /** A username holding `", "` does not survive: the line splits into
      three pieces. */
  lemma SeparatorInUsernameIsUnreadable()
    ensures ParseIdLine(IdLine("1", "a, b") + "\n") == None
  {
    StripIdLine("1", "a, b");
    SplitThree();
  }

  lemma SplitThree()
    ensures |Split(IdLine("1", "a, b"), ", ")| == 3
  {
    assert IdLine("1", "a, b") == "1" + ", " + ("a" + ", " + "b");
    assert Split(IdLine("1", "a, b"), ", ") == ["1"] + Split("a, b", ", ") by {
      CommaSpaceCannotStraddle("1");
      SplitAfter("1", ", ", "a, b");
    }
    assert Split("a, b", ", ") == ["a"] + Split("b", ", ") by {
      assert "a, b" == "a" + ", " + "b";
      CommaSpaceCannotStraddle("a");
      SplitAfter("a", ", ", "b");
    }
  }

  // ----- reading the printed lines back -----

  /** Universal newlines, as a text file is read: `"\r\n"` and a lone
      `'\r'` are read as `'\n'`. */
  function Newlines(s: string): (r: string)
    ensures '\r' !in s ==> r == s
  {
    if s == [] then []
    else if s[0] == '\r' then "\n" + Newlines(if |s| >= 2 && s[1] == '\n' then s[2..] else s[1..])
    else [s[0]] + Newlines(s[1..])
  }

  /** The length of the first line of `s`, its `'\n'` included. */
  function LineLength(s: string): (n: nat)
    requires s != []
    ensures 1 <= n <= |s|
    ensures forall i :: 0 <= i < n - 1 ==> s[i] != '\n'
    ensures n < |s| ==> s[n - 1] == '\n'
  {
    if s[0] == '\n' || |s| == 1 then 1 else 1 + LineLength(s[1..])
  }

  /** `for value in input_` over the text `s` as read: each line with its
      `'\n'`, the last one possibly without. */
  function FileLines(s: string): seq<string>
    decreases |s|
  {
    if s == [] then [] else [s[..LineLength(s)]] + FileLines(s[LineLength(s)..])
  }

  /** The lines written one after the other. */
  function Concat(lines: seq<string>): string {
    if lines == [] then [] else lines[0] + Concat(lines[1..])
  }

  /** A complete line: its only `'\n'` is its last character. */
  predicate OneLine(line: string) {
    line != [] && line[|line| - 1] == '\n' && '\n' !in line[..|line| - 1]
  }

  /** A complete line at the head of a text is read as one value. */
  lemma FileLinesFirst(line: string, rest: string)
    requires OneLine(line)
    ensures FileLines(line + rest) == [line] + FileLines(rest)
  {
    var s := line + rest;
    forall i | 0 <= i < |line| - 1
      ensures s[i] != '\n'
    {
      assert s[i] == line[..|line| - 1][i];
    }
    assert s[|line| - 1] == '\n';
    var n := LineLength(s);
    assert n == |line|;
    assert s[..n] == line && s[n..] == rest;
  }

  /** Complete lines written one after the other are read back one by one. */
  lemma {:induction false} FileLinesConcat(lines: seq<string>)
    requires forall i :: 0 <= i < |lines| ==> OneLine(lines[i])
    ensures FileLines(Concat(lines)) == lines
  {
    if lines != [] {
      FileLinesFirst(lines[0], Concat(lines[1..]));
      FileLinesConcat(lines[1..]);
    }
  }

  lemma {:induction false} ConcatWithout(lines: seq<string>, c: char)
    requires forall i :: 0 <= i < |lines| ==> c !in lines[i]
    ensures c !in Concat(lines)
  {
    if lines != [] {
      ConcatWithout(lines[1..], c);
    }
  }

  /** A printed line of readable fields is one complete line with no
      carriage return. */
  lemma PrintedLine(id: string, username: string)
    requires Readable(id, username)
    ensures OneLine(IdLine(id, username) + "\n") && '\r' !in IdLine(id, username) + "\n"
  {
    var line := IdLine(id, username) + "\n";
    assert line[..|line| - 1] == id + ", " + username;
  }

  /** `hydrate` reads the output of `ids` back: one value per printed
      line, each split into the id and username it was printed from, when
      every tweet's fields are readable. */
  lemma HydrateReadsIds(tweets: seq<Tweet>, lines: seq<string>)
    requires |lines| == |tweets|
    requires forall i :: 0 <= i < |lines| ==> lines[i] == IdLine(tweets[i].id, tweets[i].username) + "\n"
    requires forall i :: 0 <= i < |tweets| ==> Readable(tweets[i].id, tweets[i].username)
    ensures var values := FileLines(Newlines(Concat(lines)));
      && |values| == |tweets|
      && forall i :: 0 <= i < |values| ==> ParseIdLine(values[i]) == Some((tweets[i].id, tweets[i].username))
  {
    forall i | 0 <= i < |lines|
      ensures OneLine(lines[i]) && '\r' !in lines[i]
      ensures ParseIdLine(lines[i]) == Some((tweets[i].id, tweets[i].username))
    {
      PrintedLine(tweets[i].id, tweets[i].username);
      IdLineRoundTrip(tweets[i].id, tweets[i].username);
    }
    ConcatWithout(lines, '\r');
    FileLinesConcat(lines);
  }

  /** Two complete lines written one after the other are read as two
      values. */
  lemma TwoLines(l1: string, l2: string)
    requires OneLine(l1) && OneLine(l2)
    ensures FileLines(l1 + l2) == [l1, l2]
  {
    FileLinesFirst(l1, l2);
    FileLinesFirst(l2, []);
    assert l2 + [] == l2;
  }

  /** A username `u1 + "\n" + u2` is read back as two values: the line
      printed for `u1`, and `u2` on a line of its own. */
  lemma LineFeedSplitsValue(id: string, u1: string, u2: string)
    requires '\n' !in id && '\n' !in u1 && '\n' !in u2
    requires '\r' !in id && '\r' !in u1 && '\r' !in u2
    ensures FileLines(Newlines(IdLine(id, u1 + "\n" + u2) + "\n")) == [IdLine(id, u1) + "\n", u2 + "\n"]
  {
    var l1 := IdLine(id, u1) + "\n";
    var l2 := u2 + "\n";
    assert IdLine(id, u1 + "\n" + u2) + "\n" == l1 + l2;
    assert l1[..|l1| - 1] == id + ", " + u1;
    assert l2[..|l2| - 1] == u2;
    assert '\r' !in l1 + l2;
    TwoLines(l1, l2);
  }

  /** A username `u1 + "\r" + u2` splits the same way, universal newlines
      reading the `'\r'` as a line end (`u2` is not empty, or `"\r\n"`
      would read as one line end). */
  lemma CarriageReturnSplitsValue(id: string, u1: string, u2: string)
    requires '\n' !in id && '\n' !in u1 && '\n' !in u2
    requires '\r' !in id && '\r' !in u1 && '\r' !in u2
    requires u2 != []
    ensures FileLines(Newlines(IdLine(id, u1 + "\r" + u2) + "\n")) == [IdLine(id, u1) + "\n", u2 + "\n"]
  {
    var l1 := IdLine(id, u1) + "\n";
    var l2 := u2 + "\n";
    assert IdLine(id, u1 + "\r" + u2) + "\n" == IdLine(id, u1) + ("\r" + l2);
    assert '\r' !in IdLine(id, u1);
    NewlinesPrefix(IdLine(id, u1), "\r" + l2);
    assert Newlines("\r" + l2) == "\n" + l2 by {
      var t := "\r" + l2;
      assert t[0] == '\r' && t[1] == u2[0] && t[1..] == l2;
    }
    assert IdLine(id, u1) + ("\n" + l2) == l1 + l2;
    assert l1[..|l1| - 1] == id + ", " + u1;
    assert l2[..|l2| - 1] == u2;
    TwoLines(l1, l2);
  }

  /** A username holding a line break does not survive: the line
      printed for `("1", "a\nb")` is read as the two values printed for
      `("1", "a")` and `"b\n"`, and the second does not unpack
      (`ParseTwoValues`). A carriage return splits the same way. */
  lemma LineBreakInUsernameIsUnreadable()
    ensures FileLines(Newlines(IdLine("1", "a\nb") + "\n")) == [IdLine("1", "a") + "\n", "b\n"]
    ensures FileLines(Newlines(IdLine("1", "a\rb") + "\n")) == [IdLine("1", "a") + "\n", "b\n"]
  {
    assert "a\nb" == "a" + "\n" + "b" && "a\rb" == "a" + "\r" + "b";
    assert "b" + "\n" == "b\n";
    LineFeedSplitsValue("1", "a", "b");
    CarriageReturnSplitsValue("1", "a", "b");
  }

  /** The two values read from that line: the first unpacks to `("1",
      "a")`, the second into one piece only. */
  lemma ParseTwoValues()
    ensures ParseIdLine(IdLine("1", "a") + "\n") == Some(("1", "a")) && ParseIdLine("b\n") == None
  {
    assert Readable("1", "a") by {
      assert !Contains("1", ", ") && !Contains("a", ", ");
    }
    IdLineRoundTrip("1", "a");
    SingleValue();
  }

  lemma SingleValue()
    ensures ParseIdLine("b\n") == None
  {
    assert Strip("b\n") == "b" by {
      assert "b\n" == "b" + "\n";
      RStripTail("b", "\n");
    }
    assert Split("b", ", ") == ["b"] by {
      assert !Contains("b", ", ") by { assert !OccursAt("b", ", ", 0); }
      SplitWithout("b", ", ");
    }
  }

  /** Text free of `'\r'` comes through universal newlines unchanged. */
  lemma {:induction false} NewlinesPrefix(a: string, b: string)
    requires '\r' !in a
    ensures Newlines(a + b) == a + Newlines(b)
    decreases |a|
  {
    if a != [] {
      var t := a[1..];
      assert a + b == [a[0]] + (t + b) && a == [a[0]] + t;
      NewlinesCons(a[0], t + b);
      NewlinesPrefix(t, b);
    } else {
      assert a + b == b;
    }
  }

  lemma NewlinesCons(c: char, t: string)
    requires c != '\r'
    ensures Newlines([c] + t) == [c] + Newlines(t)
  {
    assert ([c] + t)[1..] == t;
  }

  /** `ids(hashtag, per_driver, times, from_id, language)` with
      `scrape_more` consumed to the end: the query is a copy of the
      template, with `l` set when a language is given, and one line is
      printed per collected tweet, in order; `tweets` are the collected
      tweets. `scraper` stands for
      `partial(scraper.scraper, baseurl=..., per_driver=...)`. */
  method Ids(template: Query, hashtag: string, scraper: (nat, map<string, string>) -> seq<Tweet>,
             times: int, fromId: string, language: string)
    returns (lines: seq<string>, tweets: seq<Tweet>, ghost cycles: seq<Cycle>)
    ensures |cycles| == if times > 0 then times else 0
    ensures IsRun(if language != "" then template.entries["l" := language] else template.entries,
                  hashtag, fromId, scraper, cycles)
    ensures tweets == Flatten(cycles)
    ensures |lines| == |tweets|
    ensures forall i :: 0 <= i < |lines| ==> lines[i] == IdLine(tweets[i].id, tweets[i].username) + "\n"
  {
    var query := new Query.Copy(template);
    if language != "" {
      query.Set("l", language);
    }
    tweets, cycles := ScrapeMore(query, hashtag, scraper, times, fromId);
    lines := [];
    var i := 0;
    while i < |tweets|
      invariant 0 <= i <= |tweets| && |lines| == i
      invariant forall k :: 0 <= k < i ==> lines[k] == IdLine(tweets[k].id, tweets[k].username) + "\n"
    {
      lines := lines + [IdLine(tweets[i].id, tweets[i].username) + "\n"];
      i := i + 1;
    }
  }
}
