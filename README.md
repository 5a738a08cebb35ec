# Twitter scraper bookkeeping, modelled in Dafny

This project models the sequential bookkeeping around the browser
automation of the `scraper` package (a Twitter search scraper driven
through Selenium). It covers three parts.

- **Cursor-driven collection** (`scraper/twitter/scraper.py`):
  - `scrape_more` copies a query template, sets its `q` term and runs an
    injected per-cycle scraper `times` times. Before each cycle with a
    truthy cursor it rebuilds `q` as `"<q> max_id:<id>"` from the original
    `q`.
  - `get_tweets` attaches conversations to the tweets that show replies.
  - `get_url` builds the page URL.
  - `IsLastComment` tells when the comment stream has ended.
- **Browser sessions** (`scraper/driver.py`):
  - `scroll` and `goto_end_page` are loops of key presses and scrolls.
  - `class load` owns one browser at a time. It counts page loads in
    `_count_opened_urls` and replaces the browser once the count passes
    `reload_every`.
- **Record aggregation** (`scraper/cli/twitter.py`):
  - `stats` keeps its counters, dicts and `ids` de-duplication list over
    a file of JSON lines.
  - `hashtags` counts lower-cased hashtags and ranks them.
  - `ids` prints one `id, username` line per tweet, and `hydrate` splits
    such a line back.

Modules, one concern each:

| file | module | what it holds |
|---|---|---|
| `wrappers.dfy` | `Wrappers` | `Option`, `Result` |
| `pystr.dfy` | `PyStr` | Python's `str.join`, `strip`, `split(sep)`, `lower` on `seq<char>` |
| `counting.dfy` | `Counting` | `defaultdict(lambda: 0)` counting and `sorted(d, key=d.__getitem__, reverse=True)` |
| `driver.dfy` | `Driver` | an abstract `Browser` class with an action log, `Scroll`, `GotoEndPage`, the `Load` class, and the attribute lookups on what `with load(...) as driver:` binds |
| `scraper.dfy` | `Scraper` | the `Query` dict class, `GetUrl`, `GetTweets`, `IsLastComment`, the intended and as-written `get_comments` and `scraper`, `ScrapeMore` and the properties of a run |
| `cli_twitter.dfy` | `TwitterCli` | the `stats` loop as methods, proved equal to a closed-form report `Expected` |
| `cli_twitter_stats.dfy` | `TwitterStats` | what the `stats` counters amount to, stated on `Expected` |
| `cli_twitter_hashtags.dfy` | `TwitterHashtags` | the `hashtags` command |
| `cli_twitter_ids.dfy` | `TwitterIds` | the `ids` command and the `hydrate` line split |

The external world is represented by parameters.

- The per-cycle scraper is a function of the cycle number and the query
  contents. The cycle number is there because the page it reads changes
  between cycles.
- `get_comments(url)` is a function from a URL to its conversations.
- The successive answers of an `is_ended()` predicate are a function of
  the poll number.
- `urlencode` is a function from the query dict to a string.
- `tweet.iterate_tweets`, `line['username']`, `stats.parse_humanized_int`,
  `stats.is_of_lang(...)` and `stats.remove_punctuations` are functions.
- `datetime.now()` is an integer parameter.

The Selenium browser is a class with a ghost log of the actions it
received. `load.__enter__` returns the `load` object itself, so the name a
`with load(...) as driver:` binds is that object, not its browser
(`Driver.Entered`). Each `load` keeps a ghost log of browser launches, visits and
shutdowns, numbered by browser generation.

Python's falsy `None` for `max_id`, `url` and `language` is modelled as the
empty string. The code only ever tests these values for truthiness and uses
them when they are truthy.

## Model

| member | source | states |
|---|---|---|
| `Driver.Scroll` | scraper/driver.py:27-31 | exactly `max(times, 0)` scroll-to-bottom actions are sent, and the same browser is returned |
| `Driver.GotoEndPage` | scraper/driver.py:34-39 | PAGE_DOWN is pressed once per poll that answered "not ended" and never after an "ended" answer; none is pressed when the first poll answers "ended" |
| `Driver.Repeat` | scraper/driver.py:28-29 | the action log of a counted loop: `n` copies of one action |
| `Driver.Counter` | scraper/driver.py:65-73 | the value of `_count_opened_urls` after `k` calls of `get`, never negative and at most `reload_every` when that is non-negative |
| `Driver.CounterIsModulo` | scraper/driver.py:65-73 | with `reload_every = R >= 0`, the counter after `k` calls is `k mod (R + 1)` |
| `Driver.ReloadOnMultiples` | scraper/driver.py:58-73 | with `R >= 0`, the `k`-th `get` replaces the browser iff `k` is a multiple of `R + 1` |
| `Driver.ReloadAlwaysWhenNegative` | scraper/driver.py:65-73 | with a negative `reload_every`, every `get` replaces the browser |
| `Driver.Browser.constructor` | scraper/driver.py:46 | `webdriver.Firefox()` yields a browser that has done nothing |
| `Driver.Browser.Get` | scraper/driver.py:49 | `driver.get` appends one visit to the browser's log |
| `Driver.Browser.ScrollDown` | scraper/driver.py:29 | `execute_script(scrollTo ...)` appends one scroll to the log |
| `Driver.Browser.SendPageDown` | scraper/driver.py:37 | `send_keys(PAGE_DOWN)` appends one key press to the log |
| `Driver.Browser.Quit` | scraper/driver.py:56 | `driver.quit()` appends a quit, after which the browser counts as quit |
| `Driver.Load.constructor` | scraper/driver.py:43-50 | the counter starts at 0, a browser is launched, and a given URL is opened on it without being counted |
| `Driver.Load.NeedReload` | scraper/driver.py:65-73 | the counter is incremented; the answer is true iff the new value exceeds `reload_every`, and exactly then the counter is reset to 0 |
| `Driver.Load.Get` | scraper/driver.py:58-63 | the counter invariant is kept; on reload the old browser is quit before a fresh one is launched; the URL is then opened on the current browser, whose `base_url` becomes the URL; a reload happens exactly on the calls `Reloads` names |
| `Driver.Load.Exit` | scraper/driver.py:55-56 | the current browser, possibly a replacement, is quit |
| `Scraper.Query.constructor` | scraper/twitter/scraper.py:32-35 | a query dict holding the given entries |
| `Scraper.Query.Copy` | scraper/twitter/scraper.py:109 | `deepcopy(query)`: a fresh dict with the same contents |
| `Scraper.Query.Set` | scraper/twitter/scraper.py:110 | `query[key] = value` changes that key only |
| `Scraper.GetUrl` | scraper/twitter/scraper.py:93-95 | joining a single piece with `' '` leaves it as it is, so the URL is the base URL followed by the encoded parameters |
| `Scraper.WithCommentsKeepsTweet` | scraper/twitter/scraper.py:45-48 | a tweet's conversations are extended with those of its page exactly when its reply count is positive; nothing else about it changes |
| `Scraper.AddConversations` | scraper/twitter/scraper.py:47-48 | the `add_conversation` loop appends the conversations in order |
| `Scraper.GetTweets` | scraper/twitter/scraper.py:39-49 | the tweets come out in the order they were extracted, one for one, each with conversations attached as `WithComments` describes |
| `Scraper.FindElement` | scraper/twitter/scraper.py:73-75 | a CSS lookup succeeds iff the selector matches some element |
| `Scraper.IsLastComment` | scraper/twitter/scraper.py:66-78 | true iff the `.timeline-end.has-more-items .stream-end` element is absent |
| `Scraper.ScrollToLastComment` | scraper/twitter/scraper.py:56 | the evidently intended call `goto_end_page(driver.driver, IsLastComment(driver.driver))` on the browser of the `load` session (see Findings): PAGE_DOWN is pressed only while the stream-end element is present, and it stops early only once the element is gone |
| `Scraper.GetCommentsAsWritten` | scraper/twitter/scraper.py:52-56 | as written, `get_comments` always fails with `AttributeError("find_element_by_tag_name")` before producing any conversation |
| `Scraper.FirstCommented` | scraper/twitter/scraper.py:45-46 | the index of the first tweet with a positive reply count: every earlier tweet has none, and the tweet at that index has one, unless the index is the length |
| `Scraper.GetTweetsAsWritten` | scraper/twitter/scraper.py:39-49 | as written, `get_tweets` yields exactly the tweets before the first one with a positive reply count, unchanged. It raises `AttributeError` iff such a tweet exists |
| `Scraper.AsWrittenNeedsNoReplies` | scraper/twitter/scraper.py:45-48 | the as-written `get_tweets` gets through the whole list iff no tweet shows a reply; then the intended one also leaves every tweet unchanged |
| `Scraper.RepliedTweetRaises` | scraper/twitter/scraper.py:45-56 | one tweet with one reply: as written nothing is yielded, while the intended `get_tweets` attaches the conversations of its page |
| `Scraper.ScraperAsWritten` | scraper/twitter/scraper.py:98-102 | as written, `scraper` always fails: at `execute_script` when `per_driver > 0`, and at `page_source` otherwise |
| `Scraper.Scrape` | scraper/twitter/scraper.py:98-104 | the intended `scraper`: the browser of a fresh `load` opens the query's URL (when non-empty), scrolls `max(per_driver, 0)` times and quits. Every extracted tweet comes out in order, with conversations attached as `WithComments` says |
| `Scraper.WithComments` | scraper/twitter/scraper.py:45-48 | defines what `get_tweets` makes of one tweet; its properties are stated by `WithCommentsKeepsTweet` |
| `Scraper.NextQ` | scraper/twitter/scraper.py:111-113 | defines the `q` handed to the next cycle: rebuilt from the original `q` with the cursor when the cursor is truthy, else the previous cycle's `q`; stated by `CursorTerm`, `NoCursorAccumulation` and `FalsyCursorKeepsOriginal` |
| `Scraper.LastQ` | scraper/twitter/scraper.py:110-113 | defines the `q` the last cycle was given, the original `q` before any cycle; stated by `FirstCycleQuery` and `RunExtend` |
| `Driver.Lookup` | scraper/driver.py:42-73 | an attribute lookup succeeds iff the object has the attribute, and otherwise raises `AttributeError` naming it. Of the names the model looks up, a `load` object has only those that driver.py:42-73 sets or defines |
| `Driver.ScrollLookups` | scraper/driver.py:27-31 | `scroll` fails iff it is handed a `load` object and `times > 0`, and then at `execute_script` |
| `Driver.GotoEndPageLookups` | scraper/driver.py:34-35 | `goto_end_page` fails iff it is handed a `load` object, and then at `find_element_by_tag_name` |
| `Driver.Reloads` | scraper/driver.py:58-73 | defines when the `k`-th `get` replaces the browser; stated by `ReloadOnMultiples` and `ReloadAlwaysWhenNegative` |
| `Driver.Entered` | scraper/driver.py:52-53 | `__enter__` returns `self`, so the name that `with load(...) as driver:` binds is the `load` object, not its browser; both Findings rows rest on it |
| `Scraper.IsRun` | scraper/twitter/scraper.py:109-116 | defines a run of `scrape_more`: cycle `i` gets the template with `q` as `NextQ` says, and yields what the scraper produces for that query; `RunsAgree` shows a run is fixed by its inputs |
| `Scraper.Flatten` | scraper/twitter/scraper.py:111-116 | defines everything the generator yields: the tweets of all cycles, in order |
| `Scraper.CursorAfter` | scraper/twitter/scraper.py:114-116 | defines the value of `max_id` after `max_id = t.id` over the yielded tweets: the last one's id, or the old value when none was yielded; stated by `CursorAfterAppend` and `CursorAdvance` |
| `Scraper.RunCycle` | scraper/twitter/scraper.py:109-116 | cycle `i` of a run is the template with `q` set from the cycles before it, paired with what the scraper yields for that query |
| `Scraper.RunsAgree` | scraper/twitter/scraper.py:109-116 | two runs of the same length for the same template, `q`, starting cursor and scraper are equal and yield the same tweets, so `ScrapeMore`'s contract fixes its output |
| `Scraper.ScrapeMore` | scraper/twitter/scraper.py:107-116 | the output is the in-order concatenation of exactly `max(times, 0)` cycles, with no stop on an empty cycle. Each cycle gets the template with `q` as `NextQ` says. The caller's query is not modified (no `modifies` clause) |
| `Scraper.YieldAll` | scraper/twitter/scraper.py:114-116 | the inner loop yields the cycle's tweets in order and leaves `max_id` at the last tweet's id, or unchanged when the cycle is empty |
| `Scraper.CursorAfterAppend` | scraper/twitter/scraper.py:114-116 | the cursor after two runs of tweets is the cursor after the second, started from the cursor after the first |
| `Scraper.RunExtend` | scraper/twitter/scraper.py:111-116 | a run followed by one more correctly built cycle is a run, and its output grows by that cycle's tweets |
| `Scraper.CursorAdvance` | scraper/twitter/scraper.py:114-116 | the cursor moves to the id of the last tweet a cycle yielded, and stays put when the cycle yielded nothing |
| `Scraper.CursorTerm` | scraper/twitter/scraper.py:112-113 | whenever the cursor is truthy, the `q` handed on is exactly `q + " max_id:" + cursor` |
| `Scraper.NoCursorAccumulation` | scraper/twitter/scraper.py:113 | every `q` handed on is the original `q`, or the original `q` followed by one `max_id:` term naming the starting cursor or an id already yielded |
| `Scraper.FalsyCursorKeepsOriginal` | scraper/twitter/scraper.py:110-113 | with no empty ids, a falsy cursor means nothing has been yielded yet, and then `q` is the original one |
| `Scraper.OtherKeysUnchanged` | scraper/twitter/scraper.py:109-114 | keys other than `q` reach every cycle exactly as the template has them |
| `Scraper.FirstCycleQuery` | scraper/twitter/scraper.py:110-113 | the first cycle gets `q + " max_id:" + max_id` when a starting cursor is given, and `q` otherwise |
| `PyStr.Join` | scraper/twitter/scraper.py:113 | defines `sep.join(parts)`; stated by `JoinOne`, `JoinTwo` and `JoinSplit` |
| `PyStr.Strip` | scraper/cli/twitter.py:67 | defines `strip()` as `rstrip()` after `lstrip()`; stated by `StripAround` |
| `PyStr.Lower` | scraper/cli/twitter.py:132 | defines `lower()` character by character; stated by `LowerChar` and `LowerIdempotent` |
| `PyStr.JoinOne` | scraper/twitter/scraper.py:95 | `sep.join([a]) == a` |
| `PyStr.JoinTwo` | scraper/twitter/scraper.py:113 | `sep.join([a, b]) == a + sep + b` |
| `PyStr.LStrip` | scraper/cli/twitter.py:67 | `lstrip()` drops exactly the leading whitespace |
| `PyStr.RStrip` | scraper/cli/twitter.py:67 | `rstrip()` drops exactly the trailing whitespace |
| `PyStr.StripAround` | scraper/cli/twitter.py:67 | stripping removes exactly the whitespace following a trimmed string |
| `PyStr.Split` | scraper/cli/twitter.py:67 | `split(sep)` always returns at least one piece |
| `PyStr.JoinSplit` | scraper/cli/twitter.py:67 | joining the pieces of `split(sep)` back with `sep` gives the original string |
| `PyStr.SplitWithout` | scraper/cli/twitter.py:67 | a string holding no separator splits into itself alone |
| `PyStr.SplitAfter` | scraper/cli/twitter.py:67 | the first piece of `a + sep + b` is `a` when no separator occurrence starts inside `a` |
| `PyStr.CommaSpaceCannotStraddle` | scraper/cli/twitter.py:67 | for `", "`, a first field without `", "` contains no occurrence of the separator that reaches into the one that follows it |
| `PyStr.LowerChar` | scraper/cli/twitter.py:132 | an ASCII capital becomes its own small letter (its code plus 32), and every other character is kept |
| `PyStr.LowerIdempotent` | scraper/cli/twitter.py:132 | lower-casing a lower-cased string changes nothing |
| `Counting.Inc` | scraper/cli/twitter.py:217 | defines `d[k] += 1` on a `defaultdict(lambda: 0)` |
| `Counting.AddAll` | scraper/cli/twitter.py:215-217 | defines counting a run of keys one by one into a dict; stated by `AddAllAppend` and `TallyCounts` |
| `Counting.Tally` | scraper/cli/twitter.py:211-217 | defines the dict filled from empty; stated by `TallyCounts` |
| `Counting.KeyOrder` | scraper/cli/twitter.py:218 | defines the dict's keys in insertion order; stated by `KeyOrderOnce` |
| `Counting.AddAllAppend` | scraper/cli/twitter.py:215-217 | counting two runs in turn is counting their concatenation |
| `Counting.TallyCounts` | scraper/cli/twitter.py:215-217 | a key is in the dict iff it was counted, and its value is its number of occurrences |
| `Counting.KeyOrderOnce` | scraper/cli/twitter.py:218 | the dict's keys list every counted key exactly once |
| `Counting.InsertByCount` | scraper/cli/twitter.py:218 | inserting a key into a list ordered by non-increasing count keeps it ordered and adds exactly that key |
| `Counting.SortByCount` | scraper/cli/twitter.py:218 | `sorted(keys, key=d.__getitem__, reverse=True)` is a permutation of the keys in non-increasing order of count |
| `TwitterHashtags.Hashtags` | scraper/cli/twitter.py:209-219 | the value for key `h` is the number of hashtag occurrences, over all lines and all posts and comments, whose `lower()` is `h`; every key is lower-case; each key is listed once, by non-increasing count |
| `TwitterHashtags.TallyKeys` | scraper/cli/twitter.py:215-218 | the filled dict holds exactly the counted keys with their occurrence counts, and its key order lists each once |
| `TwitterHashtags.AllTagsLower` | scraper/cli/twitter.py:217 | every counted key is already lower-case |
| `TwitterCli.LowerAll` | scraper/cli/twitter.py:130-132 | the hashtags of one record, each lower-cased, in order |
| `TwitterCli.Usernames` | scraper/cli/twitter.py:129 | the author of every record, in order, as `users` counts them (also at line 144) |
| `TwitterCli.Posts` | scraper/cli/twitter.py:118 | the post of every line, in order |
| `TwitterCli.LineUsers` | scraper/cli/twitter.py:143 | the `username` of every line, in order, as `users_posting` counts them |
| `TwitterCli.Entries` | scraper/cli/twitter.py:114-118 | one entry per input line: the line's user, the first record `iterate_tweets` yields and the remaining ones |
| `TwitterCli.CountTags` | scraper/cli/twitter.py:130-132 | `for ht in ...: hashtags[ht.lower()] += 1` counts every lower-cased hashtag |
| `TwitterCli.Filter.Keeps` | scraper/cli/twitter.py:123-124 | defines the language test, the same for comments and for posts at 140-141: kept when no language is given or when `is_lang(remove_punctuations(text).strip())` holds |
| `TwitterCli.Engagement` | scraper/cli/twitter.py:133-136 | defines what a `retweets` or `likes` value adds, the same at 151-158: `parse_humanized_int(v)` when `v` is truthy, else nothing |
| `TwitterCli.AfterComments` | scraper/cli/twitter.py:121-139 | defines the state after the `for t in gen` loop; `CountComments` implements it and `LoopSeen`, `LoopComments` and `LoopRecords` state what it adds |
| `TwitterCli.AfterLine` | scraper/cli/twitter.py:115-168 | defines the state after one line; `StatsLine` implements it |
| `TwitterCli.Run` | scraper/cli/twitter.py:114-168 | defines the state after the lines, one after the other; stated by `RunIsExpected` |
| `TwitterCli.Expected` | scraper/cli/twitter.py:114-168 | defines the closed-form report; its properties are the `TwitterStats` lemmas |
| `TwitterCli.CountComment` | scraper/cli/twitter.py:125-139 | a counted comment adds one comment, one with video when it has videos, and one with images when it has images |
| `TwitterCli.CountPost` | scraper/cli/twitter.py:140-168 | a counted post adds to the post counters and to `users_posting` under the line's user, and widens the period to its time |
| `TwitterCli.CountRecord` | scraper/cli/twitter.py:128-139 | a counted post or comment adds its author to `users`, its lower-cased hashtags, its videos, images, retweets and likes |
| `TwitterCli.CountComments` | scraper/cli/twitter.py:121-139 | the `for t in gen` loop sees every comment and counts those the language filter keeps |
| `TwitterCli.StatsLine` | scraper/cli/twitter.py:115-168 | one line: counted in `count_all_posts`; only a post id not met before gets its comments and its post processed |
| `TwitterCli.Stats` | scraper/cli/twitter.py:84-168 | fails, at the first line that yields no record, exactly when some line yields none (`next(gen)` raises `StopIteration`); otherwise every counter, dict and the `ids` list equal the closed-form report `Expected` |
| `TwitterCli.RunIsExpected` | scraper/cli/twitter.py:114-168 | running the loop line by line gives the closed-form report |
| `TwitterCli.RunSeen` | scraper/cli/twitter.py:116-122 | `count_all_posts` counts every line, `count_all_comments` the comments of each first line of a post, and `ids` holds each post id once |
| `TwitterCli.RunComments` | scraper/cli/twitter.py:123-139 | the comment counters count the kept comments of each first line of a post |
| `TwitterCli.RunPosts` | scraper/cli/twitter.py:140-168 | the post counters count the kept posts of first lines |
| `TwitterCli.RunRecords` | scraper/cli/twitter.py:123-168 | the shared counters count every counted record, comments before their post |
| `TwitterCli.SumConcat` | scraper/cli/twitter.py:128-163 | a total over two runs of records is the sum of their totals |
| `TwitterCli.CountConcat` | scraper/cli/twitter.py:125-163 | so is the number of records passing a test |
| `TwitterCli.RecordsPlusConcat` | scraper/cli/twitter.py:128-163 | counting two runs of records in turn is counting their concatenation |
| `TwitterCli.PostsPlusAppend` | scraper/cli/twitter.py:140-168 | counting one more post is one more step of the post counters |
| `TwitterStats.SeenIdsMembers` | scraper/cli/twitter.py:119-120 | an id is in `ids` iff some line has a post with that id |
| `TwitterStats.SeenIdsDistinct` | scraper/cli/twitter.py:119-120 | `ids` holds no id twice |
| `TwitterStats.SeenIdsBound` | scraper/cli/twitter.py:116-120 | in sizes: no more counted posts than ids in `ids`, and no more ids than lines |
| `TwitterStats.CountedPostsSeen` | scraper/cli/twitter.py:119-120 | every counted post's id is in `ids` |
| `TwitterStats.CountedPostsDistinct` | scraper/cli/twitter.py:119-142 | no two counted posts have the same id |
| `TwitterStats.DuplicateLine` | scraper/cli/twitter.py:116-119 | a line repeating an earlier post id only adds one to `count_all_posts`; everything else stays as it was |
| `TwitterStats.KeptBound` | scraper/cli/twitter.py:123-124 | the language filter keeps at most every record, and keeps all of them when no language is given |
| `TwitterStats.FilterBounds` | scraper/cli/twitter.py:119-142 | `count_comments <= count_all_comments`; with no language, the two are equal and every distinct post is counted |
| `TwitterStats.ReportCounts` | scraper/cli/twitter.py:116-142 | `count_posts <= len(ids) <= count_all_posts` and `count_comments <= count_all_comments`; with no language, `count_comments == count_all_comments` and `count_posts == len(ids)` |
| `TwitterStats.SumSplits` | scraper/cli/twitter.py:128-163 | a total over every counted record is the counted comments' total plus the counted posts' total |
| `TwitterStats.EngagementSplits` | scraper/cli/twitter.py:133-158 | `count_retweets` is `count_retweets_posts` plus the comments' retweets, and likewise for likes |
| `TwitterStats.MediaTotals` | scraper/cli/twitter.py:128-163 | `count_imgs` and `count_videos` sum the lengths of the `image` and `video` lists over the counted comments and posts |
| `TwitterStats.TimesBracket` | scraper/cli/twitter.py:164-168 | the running minimum and maximum bracket the start value and every post time, and each equals one of them |
| `TwitterStats.Period` | scraper/cli/twitter.py:111-168 | `date_from <= now <= date_to`, and every counted post's time lies between them |
| `TwitterStats.Dicts` | scraper/cli/twitter.py:129-147 | `users` counts the authors of the counted records, `users_posting` the line users of the counted posts, and `hashtags` the lower-cased hashtags of the counted records, each key by its number of occurrences |
| `TwitterStats.HashtagsLower` | scraper/cli/twitter.py:130-147 | every `hashtags` key is lower-case |
| `TwitterIds.IdLine` | scraper/cli/twitter.py:54 | defines `'{0}, {1}'.format(id_, username)`; stated by `IdLineRoundTrip`, `HydrateReadsIds` and the three counterexamples |
| `TwitterIds.ParseIdLine` | scraper/cli/twitter.py:67 | `value.strip().split(', ')` unpacked into two names: the result is the two pieces exactly when the split gives two, and they joined by `", "` are the stripped line; any other number of pieces gives `None`, where the unpacking raises `ValueError` |
| `TwitterIds.IdLineRoundTrip` | scraper/cli/twitter.py:54 | a line printed by `ids` (with its newline) is split by `hydrate` into the same id and username, when neither holds `", "` or a line break, the id does not start with whitespace and the username is non-empty and does not end with whitespace |
| `TwitterIds.Newlines` | scraper/cli/twitter.py:61 | the input file is read in text mode, with universal newlines: `"\r\n"` and a lone `'\r'` read as `'\n'`, and text without `'\r'` is unchanged |
| `TwitterIds.LineLength` | scraper/cli/twitter.py:66 | the first line of a text runs up to and including its first `'\n'`, or to the end |
| `TwitterIds.FileLines` | scraper/cli/twitter.py:66 | defines the values `for value in input_` reads: each line with its `'\n'`, the last one possibly without |
| `TwitterIds.FileLinesFirst` | scraper/cli/twitter.py:66 | a complete line at the head of the text is read as one value |
| `TwitterIds.FileLinesConcat` | scraper/cli/twitter.py:66 | complete lines written one after another are read back one by one |
| `TwitterIds.HydrateReadsIds` | scraper/cli/twitter.py:54-67 | the whole output of `ids`, read back by `hydrate` line by line, gives one value per tweet, and each splits into that tweet's id and username, when every tweet's fields are readable |
| `TwitterIds.TwoLines` | scraper/cli/twitter.py:66 | two complete lines one after the other are read as two values |
| `TwitterIds.LineFeedSplitsValue` | scraper/cli/twitter.py:54-66 | the line printed for a username `u1 + "\n" + u2` (no other line break in the fields) is read as two values, the line printed for `u1` and `u2` on its own line |
| `TwitterIds.CarriageReturnSplitsValue` | scraper/cli/twitter.py:54-66 | the same for `u1 + "\r" + u2` with `u2` not empty, universal newlines reading the `'\r'` as a line end |
| `TwitterIds.LineBreakInUsernameIsUnreadable` | scraper/cli/twitter.py:54-67 | the line printed for `("1", "a\nb")`, and the one for `("1", "a\rb")`, are each read as two values: the line printed for `("1", "a")` and `"b\n"` |
| `TwitterIds.ParseTwoValues` | scraper/cli/twitter.py:67 | of those two values, the first unpacks to `("1", "a")` and the second fails to unpack |
| `TwitterIds.StripIdLine` | scraper/cli/twitter.py:54 | only the newline is stripped from a printed line |
| `TwitterIds.SplitIdLine` | scraper/cli/twitter.py:67 | a printed line splits at its one `", "` |
| `TwitterIds.EmptyUsernameIsUnreadable` | scraper/cli/twitter.py:54 | the line printed for an empty username does not read back: `"1, \n"` strips to `"1,"` |
| `TwitterIds.SeparatorInUsernameIsUnreadable` | scraper/cli/twitter.py:54 | a username holding `", "` does not read back: the line splits into three pieces |
| `TwitterIds.Ids` | scraper/cli/twitter.py:35-57 | the query is a copy of the template with `l` set when a language is given. Exactly `max(times, 0)` cycles run as `scrape_more` runs them, and the collected tweets are those cycles' tweets, and one `id, username` line is printed per collected tweet, in order |

## Findings

| source | as written | input that shows it | evidently intended | confidence | as-written member | corrected member |
|---|---|---|---|---|---|---|
| scraper/twitter/scraper.py:54-56 | `with load(url) as driver:` binds the `load` object, because `__enter__` returns `self` (scraper/driver.py:52-53). `goto_end_page(driver, IsLastComment(driver))` then calls `driver.find_element_by_tag_name`, which `load` does not have, so `get_comments` raises `AttributeError`. `get_tweets` raises at the first tweet that shows a reply | any extracted tweet with a positive reply count, e.g. `Tweet("1", "a", url, 1, [])` (`Scraper.RepliedTweetRaises`) | the same calls on `driver.driver`, the browser of the session | not executed | `Scraper.GetTweetsAsWritten` | `Scraper.GetTweets` |
| scraper/twitter/scraper.py:100-102 | the same binding in `scraper`: `scroll(driver, per_driver)` calls `driver.execute_script` on the `load` object when `per_driver > 0`, and `driver.page_source` fails otherwise. So `ids` raises `AttributeError` in its first cycle whenever `times >= 1` | any `per_driver`, e.g. the default `per_driver=0` | `scroll(driver.driver, per_driver)` and `driver.driver.page_source` | not executed | `Scraper.ScraperAsWritten` | `Scraper.Scrape` |

## Left out

- Selenium and Firefox are left out: `implicitly_wait` and every `sleep`. The browser is a class that only logs actions.
- BeautifulSoup and lxml parsing is left out, along with `Tweet.get_tweets` and the `Tweet` and `Comment` classes. Their results are parameters: the extracted tweets and the conversations of a URL.
- `more_reply` and the HTML side of `get_comments` are left out: they are browser and HTML work. In `GetTweets`, `get_comments` is a function parameter that stands for the intended `get_comments` (see Findings). Its call of `goto_end_page` on the browser is `Scraper.ScrollToLastComment`; the call as written is `Scraper.GetCommentsAsWritten`.
- `Scraper.GetCommentsAsWritten` and `Scraper.ScraperAsWritten` model only the attribute lookups up to the first failure, not the browser that `load(url)` launches and `__exit__` quits on the way out.
- `Scraper.ScrapeMore`: the per-cycle scraper is a pure function parameter that stands for a working producer such as `Scraper.Scrape` (a method, so it cannot be passed). The producer shown in the source, `partial(scraper.scraper, ...)`, always raises (`Scraper.ScraperAsWritten`), and then `scrape_more` raises in its first cycle.
- `TwitterIds.Ids`: its promise of one printed line per collected tweet is about a working per-cycle scraper. With the shown `scraper.scraper`, `ids` raises `AttributeError` in its first cycle whenever `times >= 1`, and its `except exc.NoMoreItems` does not catch it.
- Laziness is not modelled: `scrape_more`, `get_tweets`, `get_comments` and `scraper.scraper` are generators, and `ids` prints as it goes. The model computes whole sequences, so it does not capture how scraping, yielding and printing interleave. For example, `ids` prints the lines of earlier cycles before a later cycle fails.
- `urllib.parse.urlencode` is left out; it is a parameter of `GetUrl`.
- `Driver.GotoEndPage`: the source loops until the page says it has ended, with no bound. The model presses at most `fuel` keys, and says nothing once the fuel runs out.
- `Scraper.ScrollToLastComment` has the same fuel bound.
- `stats` output is left out: the printing, the float ratios (which divide by `count_posts` and fail when it is 0), and datetime formatting. The `# all retweets` line as written prints `count_retweets_posts`, not `count_retweets`; that line is output formatting, and like the rest of the printing it is not modelled.
- `datetime.now()` is one integer parameter, used for both `date_from` and `date_to`. `datetime.fromtimestamp(int(post['time']))` is taken to be the epoch-seconds value `time` of a record.
- JSON decoding of input lines is left out. `tweet.iterate_tweets` is a parameter from a line to its records, and `line['username']` is a parameter too.
- `parse_humanized_int`, `is_of_lang` and `remove_punctuations` are uninterpreted parameters. Their suffix parsing and language detection are not modelled.
- `TwitterCli.Record` keeps only the fields `stats` reads, and a missing `image` key is an empty list. A record without a `video`, `hashtags`, `retweets` or `likes` key, where the source raises `KeyError`, is not modelled.
- `Counting.SortByCount` states order and permutation, but not the stability of Python's `sorted` among keys with equal counts.
- `PyStr.Lower` folds ASCII letters only. Python's `str.lower()` also folds other Unicode letters.
- In `ids`, each tweet is unpacked into its `id` and `username` fields. Tweet iteration (the `tweet.py` side) is not part of this model.
- `ids` catches `exc.NoMoreItems`, but nothing in the modelled code raises it. `scrape_more` never stops early, so the `except` branch is not modelled.
- `hydrate` is modelled only up to reading its lines (`TwitterIds.FileLines`) and splitting them (`TwitterIds.ParseIdLine`). The rest is left out: the `get_tweets(loader, url)` call, the `TweetFromScroll.get_url` URL, and the JSON output. As written, `get_tweets` (scraper/twitter/scraper.py:39) takes one parameter, so calling it with two raises `TypeError`, which `except exc.UnknowObject` does not catch. Hydrate therefore stops at the first line it unpacks, and no later value is split: `TwitterIds.HydrateReadsIds` is about how the lines are read and split, not about a run of hydrate as written.
- `scraper/cli/main.py` and the click command and option wiring (defaults such as `reload_every=1000`, `times=1`, `per_driver=0`) are left out.
