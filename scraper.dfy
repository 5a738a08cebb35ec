/** The collection loop of `scraper/twitter/scraper.py`: the query dict
    copied from a template, the per-cycle rebuilding of its `q` term with a
    `max_id:` cursor, the attachment of conversations to tweets, the page
    URL and the end-of-comments sentinel. */
module Scraper {
  import opened Wrappers
  import opened PyStr
  import Driver

  /** A reply extracted from a conversation page (its content is not
      inspected by this code). */
  datatype Comment = Comment(id: string, username: string, text: string)

  /** A tweet as extracted from a results page: its id, author, the URL of
      its own page, the reply count shown on it and the conversations
      attached to it so far. */
  datatype Tweet = Tweet(id: string, username: string, url: string, commentsCount: int,
                         conversations: seq<seq<Comment>>)

  /** A query dict: a mutable mapping of string keys to string values. */
  class Query {
    var entries: map<string, string>

    constructor (entries: map<string, string>)
      ensures this.entries == entries
    {
      this.entries := entries;
    }

    /** `deepcopy(query)`: a new dict with the same contents. */
    constructor Copy(from: Query)
      ensures entries == from.entries
    {
      entries := from.entries;
    }

    /** `query[key] = value`. */
    method Set(key: string, value: string)
      modifies this
      ensures entries == old(entries)[key := value]
    {
      entries := entries[key := value];
    }
  }

  /** `get_url(baseurl, params)`: `' '.join([baseurl + urlencode(params)])`.
      The form-urlencoding itself is the library's and is a parameter. */
  function GetUrl(baseurl: string, params: map<string, string>, urlencode: map<string, string> -> string): (url: string)
    ensures url == baseurl + urlencode(params)
  {
    JoinOne(" ", baseurl + urlencode(params));
    Join(" ", [baseurl + urlencode(params)])
  }

  // ----- get_tweets -----

  /** What `get_tweets` makes of one extracted tweet: the conversations of
      its page are appended, in order, only when it shows a positive reply
      count. `getComments(url)` stands for `get_comments(url)`. */
  function WithComments(t: Tweet, getComments: string -> seq<seq<Comment>>): Tweet {
    if t.commentsCount > 0 then t.(conversations := t.conversations + getComments(t.url)) else t
  }

  /** Attaching conversations changes nothing but the conversation list,
      and changes it exactly when the reply count is positive. */
  lemma WithCommentsKeepsTweet(t: Tweet, getComments: string -> seq<seq<Comment>>)
    ensures var u := WithComments(t, getComments);
      && u.id == t.id && u.username == t.username && u.url == t.url
      && u.commentsCount == t.commentsCount
      && (t.commentsCount > 0 ==> u.conversations == t.conversations + getComments(t.url))
      && (t.commentsCount <= 0 ==> u == t)
  {
  }

  /** The loop over `get_comments(tweet.url)` calling `add_conversation`. */
  method AddConversations(t: Tweet, groups: seq<seq<Comment>>) returns (u: Tweet)
    ensures u == t.(conversations := t.conversations + groups)
  {
    u := t;
    var j := 0;
    while j < |groups|
      invariant 0 <= j <= |groups|
      invariant u == t.(conversations := t.conversations + groups[..j])
    {
      u := u.(conversations := u.conversations + [groups[j]]);
      assert groups[..j + 1] == groups[..j] + [groups[j]];
      j := j + 1;
    }
    assert groups[..|groups|] == groups;
  }

  /** `get_tweets(html_source)`, fully consumed: `parsed` is what
      `Tweet.get_tweets(soup)` returned. The order is kept and each tweet
      is the one extracted, with conversations attached as `WithComments`
      says. */
  method GetTweets(parsed: seq<Tweet>, getComments: string -> seq<seq<Comment>>) returns (out: seq<Tweet>)
    ensures |out| == |parsed|
    ensures forall i :: 0 <= i < |parsed| ==> out[i] == WithComments(parsed[i], getComments)
  {
    out := [];
    var i := 0;
    while i < |parsed|
      invariant 0 <= i <= |parsed|
      invariant |out| == i
      invariant forall k :: 0 <= k < i ==> out[k] == WithComments(parsed[k], getComments)
    {
      var t := parsed[i];
      if t.commentsCount > 0 {
        t := AddConversations(t, getComments(t.url));
      }
      out := out + [t];
      i := i + 1;
    }
  }

  // ----- IsLastComment -----

  /** The rendered page as far as CSS lookups go: the elements (by an
      opaque handle) each selector matches, in document order. */
  datatype Page = Page(matching: string -> seq<nat>)

  datatype LookupError = NoSuchElement

  const StreamEndSelector: string := ".timeline-end.has-more-items .stream-end"

  /** `find_element_by_css_selector(selector)`: the first match, or
      `NoSuchElementException`. */
  function FindElement(page: Page, selector: string): (r: Result<nat, LookupError>)
    ensures r.Ok? <==> page.matching(selector) != []
  {
    var found := page.matching(selector);
    if found == [] then Err(NoSuchElement) else Ok(found[0])
  }

  /** `IsLastComment(driver)()`: the comment stream has ended when the
      "more items" stream-end element cannot be found. */
  function IsLastComment(page: Page): (ended: bool)
    ensures ended <==> page.matching(StreamEndSelector) == []
  {
    match FindElement(page, StreamEndSelector)
    case Ok(_) => false
    case Err(NoSuchElement) => true
  }

  /** `goto_end_page(driver.driver, IsLastComment(driver.driver))`, the
      call `get_comments` evidently intends on the browser of its `load`
      session; `pages(k)` is the page at the k-th poll. When it stops
      before running out of `fuel`, the sentinel is gone from the page. */
  method ScrollToLastComment(session: Driver.Load, pages: nat -> Page, fuel: nat) returns (presses: nat)
    requires session.Valid()
    modifies session.driver`actions
    ensures session.driver.actions == old(session.driver.actions) + Driver.Repeat(Driver.PageDown, presses)
    ensures forall k :: 0 <= k < presses ==> pages(k).matching(StreamEndSelector) != []
    ensures presses < fuel ==> pages(presses).matching(StreamEndSelector) == []
  {
    var d;
    var ended := (k: nat) => IsLastComment(pages(k));
    d, presses := Driver.GotoEndPage(session.driver, ended, fuel);
    forall k | 0 <= k < presses
      ensures pages(k).matching(StreamEndSelector) != []
    {
      assert !ended(k);
    }
  }

  // ----- get_comments and scraper as written -----

  /** `get_comments(url)` as written, up to its first failure:
      `with load(url) as driver:` binds the `load` object, so
      `goto_end_page(driver, ...)` fails on its first lookup and no
      conversation is produced (`__exit__` then quits the browser that
      `load(url)` launched). */
  function GetCommentsAsWritten(url: string, getComments: string -> seq<seq<Comment>>)
    : (r: Result<seq<seq<Comment>>, Driver.PyError>)
    ensures r == Err(Driver.AttributeError("find_element_by_tag_name"))
  {
    match Driver.GotoEndPageLookups(Driver.Entered)
    case Err(e) => Err(e)
    case Ok(_) => Ok(getComments(url))
  }

  /** The index of the first tweet showing a positive reply count, or
      `|parsed|` when there is none. */
  function FirstCommented(parsed: seq<Tweet>): (n: nat)
    ensures n <= |parsed|
    ensures forall i :: 0 <= i < n ==> parsed[i].commentsCount <= 0
    ensures n < |parsed| ==> parsed[n].commentsCount > 0
  {
    if parsed == [] then 0
    else if parsed[0].commentsCount > 0 then 0
    else 1 + FirstCommented(parsed[1..])
  }

  /** `get_tweets(html_source)` as written, consumed until it raises: the
      tweets before the first one with a positive reply count are yielded
      unchanged, and at that one `get_comments` raises `AttributeError`.
      Only without such a tweet does it yield every tweet. */
  method GetTweetsAsWritten(parsed: seq<Tweet>, getComments: string -> seq<seq<Comment>>)
    returns (out: seq<Tweet>, raised: Option<Driver.PyError>)
    ensures out == parsed[..FirstCommented(parsed)]
    ensures raised.Some? <==> FirstCommented(parsed) < |parsed|
    ensures raised.Some? ==> raised.value == Driver.AttributeError("find_element_by_tag_name")
  {
    out := [];
    raised := None;
    var i := 0;
    while i < |parsed|
      invariant 0 <= i <= FirstCommented(parsed)
      invariant out == parsed[..i]
    {
      var t := parsed[i];
      if t.commentsCount > 0 {
        var r := GetCommentsAsWritten(t.url, getComments);
        raised := Some(r.error);
        return;
      }
      out := out + [t];
      i := i + 1;
    }
  }

  /** As written and as intended, `get_tweets` agree exactly when no tweet
      shows a reply: then both yield the extracted tweets unchanged. */
  lemma {:induction false} AsWrittenNeedsNoReplies(parsed: seq<Tweet>, getComments: string -> seq<seq<Comment>>)
    ensures FirstCommented(parsed) == |parsed| <==> forall i :: 0 <= i < |parsed| ==> parsed[i].commentsCount <= 0
    ensures FirstCommented(parsed) == |parsed| ==>
      forall i :: 0 <= i < |parsed| ==> WithComments(parsed[i], getComments) == parsed[i]
  {
    if FirstCommented(parsed) < |parsed| {
      assert parsed[FirstCommented(parsed)].commentsCount > 0;
    }
  }

  /** One tweet showing one reply: as written nothing is yielded and
      `AttributeError` is raised, where the intended `get_tweets` yields the
      tweet with the conversations of its page attached. */
  lemma RepliedTweetRaises(getComments: string -> seq<seq<Comment>>)
    ensures var t := Tweet("1", "a", "https://twitter.com/a/status/1", 1, []);
      && FirstCommented([t]) == 0 && [t][..FirstCommented([t])] == []
      && WithComments(t, getComments).conversations == getComments(t.url)
  {
  }

  /** The lookups `scraper(query, baseurl, per_driver)` as written makes
      before it reads any page: `driver` is the `load` object, so `scroll`
      fails at `driver.execute_script` when `per_driver` is positive, and
      otherwise `driver.page_source` fails. It never yields a tweet. */
  function ScraperAsWritten(perDriver: int): (r: Result<(), Driver.PyError>)
    ensures r == Err(Driver.AttributeError(if perDriver > 0 then "execute_script" else "page_source"))
  {
    match Driver.ScrollLookups(Driver.Entered, perDriver)
    case Err(e) => Err(e)
    case Ok(_) => Driver.Lookup(Driver.Entered, "page_source")
  }

  /** `scraper(query, baseurl, per_driver)` as intended: the query's page
      is opened on a fresh `load` (`reload_every=1000`), its browser
      `driver.driver` is scrolled `per_driver` times and quit, and the
      tweets extracted from the page source, `extracted`, go through
      `get_tweets`. */
  method Scrape(query: map<string, string>, baseurl: string, urlencode: map<string, string> -> string,
                perDriver: int, extracted: seq<Tweet>, getComments: string -> seq<seq<Comment>>)
    returns (out: seq<Tweet>, ghost browser: Driver.Browser)
    ensures var url := GetUrl(baseurl, query, urlencode);
      browser.actions == (if url != "" then [Driver.Open(url)] else [])
                         + Driver.Repeat(Driver.ScrollToBottom, if perDriver > 0 then perDriver else 0)
                         + [Driver.Action.Quit]
    ensures |out| == |extracted|
    ensures forall i :: 0 <= i < |extracted| ==> out[i] == WithComments(extracted[i], getComments)
  {
    var url := GetUrl(baseurl, query, urlencode);
    var session := new Driver.Load(url, 1000);
    browser := session.driver;
    var d := Driver.Scroll(session.driver, perDriver);
    assert Driver.Action.Quit !in Driver.Repeat(Driver.ScrollToBottom, if perDriver > 0 then perDriver else 0);
    session.Exit();
    out := GetTweets(extracted, getComments);
  }

  // ----- scrape_more -----

  /** One cycle of `scrape_more`: the query contents handed to the
      scraper and the tweets it yielded. */
  datatype Cycle = Cycle(query: map<string, string>, items: seq<Tweet>)

  /** The tweets of all cycles, in order. */
  function Flatten(cycles: seq<Cycle>): seq<Tweet> {
    if cycles == [] then [] else Flatten(cycles[..|cycles| - 1]) + cycles[|cycles| - 1].items
  }

  /** The value of `max_id` after yielding `items` from cursor `cursor`. */
  function CursorAfter(cursor: string, items: seq<Tweet>): string {
    if items == [] then cursor else items[|items| - 1].id
  }

  /** The `q` entry handed to the cycle that follows the cycles in `done`:
      rebuilt from the original `q` when `max_id` is truthy, otherwise
      left as the previous cycle had it. */
  function NextQ(q: string, maxId: string, done: seq<Cycle>): string
    decreases |done|, 1
  {
    var cursor := CursorAfter(maxId, Flatten(done));
    if cursor != "" then Join(" ", [q, "max_id:" + cursor]) else LastQ(q, maxId, done)
  }

  /** The `q` entry the last cycle of `done` was given (the original `q`
      before the first cycle). */
  function LastQ(q: string, maxId: string, done: seq<Cycle>): string
    decreases |done|, 0
  {
    if done == [] then q else NextQ(q, maxId, done[..|done| - 1])
  }

  /** `cycles` is a run of `scrape_more(query, q, scraper, max_id=maxId)`:
      cycle `i` gets the template with its `q` set as `NextQ` says, and
      yields what the scraper produces for that query. The scraper is
      given the cycle number as well, because the pages it reads change
      between cycles. */
  ghost predicate IsRun(template: map<string, string>, q: string, maxId: string,
                        scraper: (nat, map<string, string>) -> seq<Tweet>, cycles: seq<Cycle>)
  {
    forall i :: 0 <= i < |cycles| ==>
      && cycles[i].query == template["q" := NextQ(q, maxId, cycles[..i])]
      && cycles[i].items == scraper(i, cycles[i].query)
  }

  /** `scrape_more(query, q, scraper, times, max_id)`, consumed to the end.
      It works on a copy of `query` (no `modifies` clause: the caller's
      dict is never touched), runs exactly `max(times, 0)` cycles with no
      early stop on an empty one, and yields their tweets in order. */
  method ScrapeMore(query: Query, q: string, scraper: (nat, map<string, string>) -> seq<Tweet>,
                    times: int, maxId: string)
    returns (out: seq<Tweet>, ghost cycles: seq<Cycle>)
    ensures |cycles| == if times > 0 then times else 0
    ensures IsRun(query.entries, q, maxId, scraper, cycles)
    ensures out == Flatten(cycles)
  {
    var work := new Query.Copy(query);
    work.Set("q", q);
    var cursor := maxId;
    out := [];
    cycles := [];
    var i := 0;
    while i < times
      invariant 0 <= i <= (if times > 0 then times else 0)
      invariant |cycles| == i
      invariant IsRun(query.entries, q, maxId, scraper, cycles)
      invariant out == Flatten(cycles)
      invariant cursor == CursorAfter(maxId, out)
      invariant work.entries == query.entries["q" := LastQ(q, maxId, cycles)]
    {
      if cursor != "" {
        work.Set("q", Join(" ", [q, "max_id:" + cursor]));
      }
      assert work.entries == query.entries["q" := NextQ(q, maxId, cycles)];
      var items := scraper(i, work.entries);
      CursorAfterAppend(maxId, out, items);
      out, cursor := YieldAll(out, cursor, items);
      ghost var c := Cycle(work.entries, items);
      RunExtend(query.entries, q, maxId, scraper, cycles, c);
      cycles := cycles + [c];
      i := i + 1;
    }
  }

  /** The inner `for t in scraper(query=query): yield t; max_id = t.id`. */
  method YieldAll(out: seq<Tweet>, cursor: string, items: seq<Tweet>) returns (out': seq<Tweet>, cursor': string)
    ensures out' == out + items
    ensures cursor' == CursorAfter(cursor, items)
  {
    out', cursor' := out, cursor;
    var j := 0;
    while j < |items|
      invariant 0 <= j <= |items|
      invariant out' == out + items[..j]
      invariant cursor' == CursorAfter(cursor, items[..j])
    {
      out' := out' + [items[j]];
      cursor' := items[j].id;
      assert items[..j + 1] == items[..j] + [items[j]];
      j := j + 1;
    }
    assert items[..|items|] == items;
  }

  lemma CursorAfterAppend(cursor: string, a: seq<Tweet>, b: seq<Tweet>)
    ensures CursorAfter(cursor, a + b) == CursorAfter(CursorAfter(cursor, a), b)
  {
    if b == [] {
      assert a + b == a;
    }
  }

  /** A run followed by one more cycle run as `scrape_more` runs it. */
  lemma RunExtend(template: map<string, string>, q: string, maxId: string,
                  scraper: (nat, map<string, string>) -> seq<Tweet>, cycles: seq<Cycle>, c: Cycle)
    requires IsRun(template, q, maxId, scraper, cycles)
    requires c.query == template["q" := NextQ(q, maxId, cycles)]
    requires c.items == scraper(|cycles|, c.query)
    ensures IsRun(template, q, maxId, scraper, cycles + [c])
    ensures Flatten(cycles + [c]) == Flatten(cycles) + c.items
    ensures LastQ(q, maxId, cycles + [c]) == NextQ(q, maxId, cycles)
  {
    var longer := cycles + [c];
    assert longer[..|cycles|] == cycles;
    forall i | 0 <= i < |cycles|
      ensures longer[..i] == cycles[..i]
    {
    }
  }

  // ----- properties of a run -----

  /** A run is fixed by its inputs: two runs of the same length for the
      same template, `q`, cursor and scraper are equal, so `ScrapeMore`'s
      contract determines what it yields. */
  lemma RunsAgree(template: map<string, string>, q: string, maxId: string,
                  scraper: (nat, map<string, string>) -> seq<Tweet>, a: seq<Cycle>, b: seq<Cycle>)
    requires IsRun(template, q, maxId, scraper, a) && IsRun(template, q, maxId, scraper, b)
    requires |a| == |b|
    ensures a == b && Flatten(a) == Flatten(b)
  {
    RunsAgreeUpTo(template, q, maxId, scraper, a, b, |a|);
    assert a == a[..|a|] && b == b[..|b|];
  }

  lemma {:induction false} RunsAgreeUpTo(template: map<string, string>, q: string, maxId: string,
                                         scraper: (nat, map<string, string>) -> seq<Tweet>,
                                         a: seq<Cycle>, b: seq<Cycle>, k: nat)
    requires IsRun(template, q, maxId, scraper, a) && IsRun(template, q, maxId, scraper, b)
    requires k <= |a| == |b|
    ensures a[..k] == b[..k]
  {
    if k > 0 {
      var i := k - 1;
      RunsAgreeUpTo(template, q, maxId, scraper, a, b, i);
      RunCycle(template, q, maxId, scraper, a, i);
      RunCycle(template, q, maxId, scraper, b, i);
      PrefixStep(a, b, i);
    }
  }

  lemma PrefixStep(a: seq<Cycle>, b: seq<Cycle>, i: nat)
    requires i < |a| && i < |b| && a[..i] == b[..i] && a[i] == b[i]
    ensures a[..i + 1] == b[..i + 1]
  {
    assert a[..i + 1] == a[..i] + [a[i]];
    assert b[..i + 1] == b[..i] + [b[i]];
  }

  /** Cycle `i` of a run, as `IsRun` fixes it from the cycles before it. */
  lemma RunCycle(template: map<string, string>, q: string, maxId: string,
                 scraper: (nat, map<string, string>) -> seq<Tweet>, cycles: seq<Cycle>, i: nat)
    requires IsRun(template, q, maxId, scraper, cycles) && i < |cycles|
    ensures var query := template["q" := NextQ(q, maxId, cycles[..i])];
      cycles[i] == Cycle(query, scraper(i, query))
  {
  }


  /** The cursor moves to the id of the last tweet a cycle yielded, and
      stays where it was when the cycle yielded nothing. */
  lemma CursorAdvance(maxId: string, done: seq<Cycle>, c: Cycle)
    ensures CursorAfter(maxId, Flatten(done + [c]))
         == if c.items == [] then CursorAfter(maxId, Flatten(done)) else c.items[|c.items| - 1].id
  {
    assert (done + [c])[..|done|] == done;
  }

  /** Whenever the cursor is truthy, the `q` handed on is exactly the
      original `q` followed by one `max_id:` term for that cursor. */
  lemma CursorTerm(q: string, maxId: string, done: seq<Cycle>)
    requires CursorAfter(maxId, Flatten(done)) != ""
    ensures NextQ(q, maxId, done) == q + " max_id:" + CursorAfter(maxId, Flatten(done))
  {
    JoinTwo(" ", q, "max_id:" + CursorAfter(maxId, Flatten(done)));
  }

  /** The ids a run may use as cursor: the starting one and those of the
      tweets yielded so far. */
  predicate IsCursorValue(c: string, maxId: string, items: seq<Tweet>) {
    c == maxId || exists t :: t in items && t.id == c
  }

  /** The cursor term never accumulates: every `q` handed on is the
      original `q`, or the original `q` with a single ` max_id:` term
      naming the starting cursor or a tweet already yielded. */
  lemma {:induction false} NoCursorAccumulation(q: string, maxId: string, done: seq<Cycle>)
    ensures || NextQ(q, maxId, done) == q
            || exists c :: c != "" && IsCursorValue(c, maxId, Flatten(done))
                        && NextQ(q, maxId, done) == q + " max_id:" + c
  {
    var cursor := CursorAfter(maxId, Flatten(done));
    if cursor != "" {
      CursorTerm(q, maxId, done);
      assert IsCursorValue(cursor, maxId, Flatten(done));
    } else if done != [] {
      var init := done[..|done| - 1];
      NoCursorAccumulation(q, maxId, init);
      assert done == init + [done[|done| - 1]];
      if NextQ(q, maxId, init) != q {
        var c :| c != "" && IsCursorValue(c, maxId, Flatten(init)) && NextQ(q, maxId, init) == q + " max_id:" + c;
        assert Flatten(done) == Flatten(init) + done[|done| - 1].items;
        assert IsCursorValue(c, maxId, Flatten(done));
      }
    }
  }

  /** When the starting cursor is falsy and no tweet has an empty id, the
      cursor is falsy only before anything was yielded, and then `q` is
      the original one. (With an empty id the code keeps the previous
      cycle's `q` instead of resetting it.) */
  lemma {:induction false} FalsyCursorKeepsOriginal(q: string, maxId: string, done: seq<Cycle>)
    requires forall t :: t in Flatten(done) ==> t.id != ""
    requires CursorAfter(maxId, Flatten(done)) == ""
    ensures Flatten(done) == [] && NextQ(q, maxId, done) == q
  {
    if done != [] {
      var init := done[..|done| - 1];
      assert Flatten(done) == Flatten(init) + done[|done| - 1].items;
      FalsyCursorKeepsOriginal(q, maxId, init);
    }
  }

  /** The keys other than `q` reach every cycle as the template has them. */
  lemma OtherKeysUnchanged(template: map<string, string>, q: string, maxId: string,
                           scraper: (nat, map<string, string>) -> seq<Tweet>, cycles: seq<Cycle>,
                           i: nat, k: string)
    requires IsRun(template, q, maxId, scraper, cycles) && i < |cycles|
    requires k != "q"
    ensures k in cycles[i].query <==> k in template
    ensures k in template ==> cycles[i].query[k] == template[k]
  {
  }

  /** The first cycle's `q` is the original `q` with the starting cursor
      appended when one is given, and the original `q` otherwise. */
  lemma FirstCycleQuery(template: map<string, string>, q: string, maxId: string,
                        scraper: (nat, map<string, string>) -> seq<Tweet>, cycles: seq<Cycle>)
    requires IsRun(template, q, maxId, scraper, cycles) && |cycles| > 0
    ensures cycles[0].query["q"] == if maxId != "" then q + " max_id:" + maxId else q
  {
    assert cycles[..0] == [];
    assert LastQ(q, maxId, []) == q;
    JoinTwo(" ", q, "max_id:" + maxId);
  }
}
