/** The `stats` command of `scraper/cli/twitter.py`: the records it reads
    from a file of JSON lines, the counters it keeps and the loop that
    fills them, proved equal to a closed-form report. */
module TwitterCli {
  import opened Wrappers
  import opened PyStr
  import opened Counting

  /** One post or comment as `tweet.iterate_tweets` yields it (a flat
      JSON mapping). A missing `image` key is the empty list;
      `commentsTotal` is `comments.total` and is only read for posts;
      `time` is the epoch-seconds value of `int(post['time'])`. */
  datatype Record = Record(id: string, username: string, text: string, hashtags: seq<string>,
                           image: seq<string>, video: seq<string>, retweets: string, likes: string,
                           commentsTotal: int, time: int)

  /** One input line: the `username` of the line itself, the post (the
      first record `iterate_tweets` yields) and its comments (the rest). */
  datatype Entry = Entry(lineUser: string, post: Record, comments: seq<Record>)

  /** The `--language` filter. An empty language means no filter; otherwise
      a text is kept when `is_lang(remove_punctuations(text).strip())`. */
  datatype Filter = Filter(language: string, isLang: string -> bool, removePunctuations: string -> string)
  {
    predicate Keeps(text: string) {
      language == "" || isLang(Strip(removePunctuations(text)))
    }
  }

  /** `next(gen)` raised `StopIteration`: `iterate_tweets` yielded nothing
      for the line with this index. */
  datatype StatsError = NoPostInLine(line: nat)

  /** The bookkeeping of every input line: `count_all_posts`,
      `count_all_comments` and the `ids` list. */
  datatype Seen = Seen(allPosts: int, allComments: int, ids: seq<string>)

  /** The counters of the counted comments: `count_comments`,
      `count_comments_with_video`, `count_comments_with_imgs`. */
  datatype CommentTotals = CommentTotals(count: int, withVideo: int, withImgs: int)

  /** The counters of the counted posts: `count_posts`,
      `count_posts_with_video`, `count_retweets_posts`, `count_likes_posts`,
      `count_without_comments`, `count_post_with_imgs`, the `users_posting`
      dict, `date_from` and `date_to`. */
  datatype PostTotals = PostTotals(count: int, withVideo: int, retweets: int, likes: int,
                                   withoutComments: int, withImgs: int, usersPosting: map<string, int>,
                                   dateFrom: int, dateTo: int)

  /** The counters every counted record, post or comment, adds to:
      `count_retweets`, `count_likes`, `count_videos`, `count_imgs` and the
      `users` and `hashtags` dicts. */
  datatype RecordTotals = RecordTotals(retweets: int, likes: int, videos: int, imgs: int,
                                       users: map<string, int>, hashtags: map<string, int>)

  /** Every counter, dict and list that `stats` keeps, grouped by what it
      counts. */
  datatype Report = Report(seen: Seen, comments: CommentTotals, posts: PostTotals, records: RecordTotals)

  // ----- measures over records -----

  /** `s.parse_humanized_int(v)` when `v` is truthy, else nothing added. */
  function Engagement(parse: string -> int, v: string): int {
    if v != "" then parse(v) else 0
  }

  datatype Measure = Images | Videos | Retweets | Likes

  function MeasureOf(what: Measure, r: Record, parse: string -> int): int {
    match what
    case Images => |r.image|
    case Videos => |r.video|
    case Retweets => Engagement(parse, r.retweets)
    case Likes => Engagement(parse, r.likes)
  }

  /** The total of one measure over `rs`. */
  function Sum(rs: seq<Record>, what: Measure, parse: string -> int): int {
    if rs == [] then 0 else Sum(rs[..|rs| - 1], what, parse) + MeasureOf(what, rs[|rs| - 1], parse)
  }

  datatype Test = HasVideo | HasImage | WithoutComments

  predicate Passes(test: Test, r: Record) {
    match test
    case HasVideo => r.video != []
    case HasImage => r.image != []
    case WithoutComments => r.commentsTotal == 0
  }

  /** The number of records of `rs` that pass `test`. */
  function Count(rs: seq<Record>, test: Test): nat {
    if rs == [] then 0 else Count(rs[..|rs| - 1], test) + (if Passes(test, rs[|rs| - 1]) then 1 else 0)
  }

  /** `ht.lower()` for every hashtag of every record, in order. */
  function Tags(rs: seq<Record>): seq<string> {
    if rs == [] then [] else Tags(rs[..|rs| - 1]) + LowerAll(rs[|rs| - 1].hashtags)
  }

  /** `ht.lower()` for every hashtag of `hs`, in order. */
  function LowerAll(hs: seq<string>): (r: seq<string>)
    ensures |r| == |hs| && forall i :: 0 <= i < |hs| ==> r[i] == Lower(hs[i])
  {
    if hs == [] then [] else LowerAll(hs[..|hs| - 1]) + [Lower(hs[|hs| - 1])]
  }

  /** The author of every record of `rs`, in order. */
  function Usernames(rs: seq<Record>): (r: seq<string>)
    ensures |r| == |rs| && forall i :: 0 <= i < |rs| ==> r[i] == rs[i].username
  {
    if rs == [] then [] else Usernames(rs[..|rs| - 1]) + [rs[|rs| - 1].username]
  }

  /** The post of every line of `es`, in order. */
  function Posts(es: seq<Entry>): (r: seq<Record>)
    ensures |r| == |es| && forall i :: 0 <= i < |es| ==> r[i] == es[i].post
  {
    if es == [] then [] else Posts(es[..|es| - 1]) + [es[|es| - 1].post]
  }

  /** The `username` of every line of `es`, in order. */
  function LineUsers(es: seq<Entry>): (r: seq<string>)
    ensures |r| == |es| && forall i :: 0 <= i < |es| ==> r[i] == es[i].lineUser
  {
    if es == [] then [] else LineUsers(es[..|es| - 1]) + [es[|es| - 1].lineUser]
  }

  /** `date_from` after the posts `ps`, starting from `now`. */
  function MinTime(now: int, ps: seq<Record>): int {
    if ps == [] then now
    else
      var d := MinTime(now, ps[..|ps| - 1]);
      if d > ps[|ps| - 1].time then ps[|ps| - 1].time else d
  }

  /** `date_to` after the posts `ps`, starting from `now`. */
  function MaxTime(now: int, ps: seq<Record>): int {
    if ps == [] then now
    else
      var d := MaxTime(now, ps[..|ps| - 1]);
      if d < ps[|ps| - 1].time then ps[|ps| - 1].time else d
  }

  // ----- what stats counts -----

  /** The `ids` list: each post id once, where it first occurs. */
  function SeenIds(es: seq<Entry>): seq<string> {
    if es == [] then []
    else
      var init := SeenIds(es[..|es| - 1]);
      var id := es[|es| - 1].post.id;
      if id in init then init else init + [id]
  }

  /** The last line of `es` is the first one with its post id. */
  predicate LastIsNew(es: seq<Entry>)
    requires es != []
  {
    es[|es| - 1].post.id !in SeenIds(es[..|es| - 1])
  }

  /** The records of `rs` whose text the filter keeps, in order. */
  function Kept(f: Filter, rs: seq<Record>): seq<Record> {
    if rs == [] then []
    else Kept(f, rs[..|rs| - 1]) + (if f.Keeps(rs[|rs| - 1].text) then [rs[|rs| - 1]] else [])
  }

  /** `count_all_comments`: the comments of the first line of every post. */
  function CommentsSeen(es: seq<Entry>): nat {
    if es == [] then 0
    else CommentsSeen(es[..|es| - 1]) + (if LastIsNew(es) then |es[|es| - 1].comments| else 0)
  }

  /** The comments counted (kept by the filter, first line of a post only). */
  function CountedComments(es: seq<Entry>, f: Filter): seq<Record> {
    if es == [] then []
    else CountedComments(es[..|es| - 1], f) + (if LastIsNew(es) then Kept(f, es[|es| - 1].comments) else [])
  }

  /** The lines whose post is counted (first line of a post, kept). */
  function CountedPosts(es: seq<Entry>, f: Filter): seq<Entry> {
    if es == [] then []
    else
      var e := es[|es| - 1];
      CountedPosts(es[..|es| - 1], f) + (if LastIsNew(es) && f.Keeps(e.post.text) then [e] else [])
  }

  /** All counted records, posts and comments, in the order `stats` meets
      them: a line's comments before its post. */
  function Counted(es: seq<Entry>, f: Filter): seq<Record> {
    if es == [] then []
    else
      var e := es[|es| - 1];
      Counted(es[..|es| - 1], f)
        + (if LastIsNew(es) then Kept(f, e.comments) + (if f.Keeps(e.post.text) then [e.post] else []) else [])
  }


  // ----- what the counters amount to -----

  /** `comments` grown by the counted comments `rs`. */
  function CommentsPlus(c: CommentTotals, rs: seq<Record>): CommentTotals {
    CommentTotals(c.count + |rs|, c.withVideo + Count(rs, HasVideo), c.withImgs + Count(rs, HasImage))
  }

  /** `posts` grown by the posts of the counted lines `cp`. */
  function PostsPlus(p: PostTotals, cp: seq<Entry>, parse: string -> int): PostTotals {
    var ps := Posts(cp);
    PostTotals(p.count + |cp|, p.withVideo + Count(ps, HasVideo), p.retweets + Sum(ps, Retweets, parse),
               p.likes + Sum(ps, Likes, parse), p.withoutComments + Count(ps, WithoutComments),
               p.withImgs + Count(ps, HasImage), AddAll(p.usersPosting, LineUsers(cp)),
               MinTime(p.dateFrom, ps), MaxTime(p.dateTo, ps))
  }

  /** `records` grown by the counted records `rs`. */
  function RecordsPlus(r: RecordTotals, rs: seq<Record>, parse: string -> int): RecordTotals {
    RecordTotals(r.retweets + Sum(rs, Retweets, parse), r.likes + Sum(rs, Likes, parse),
                 r.videos + Sum(rs, Videos, parse), r.imgs + Sum(rs, Images, parse),
                 AddAll(r.users, Usernames(rs)), AddAll(r.hashtags, Tags(rs)))
  }

  /** The state before the first line: every counter 0, the dicts and
      `ids` empty, both dates `now`. */
  function Initial(now: int): Report {
    Report(Seen(0, 0, []), CommentTotals(0, 0, 0), PostTotals(0, 0, 0, 0, 0, 0, map[], now, now),
           RecordTotals(0, 0, 0, 0, map[], map[]))
  }

  /** What `stats` has computed after the lines `es`: every line and the
      comments of each first line of a post are seen; the counted comments,
      posts and records make up the rest. */
  function Expected(es: seq<Entry>, f: Filter, parse: string -> int, now: int): Report {
    var init := Initial(now);
    Report(Seen(|es|, CommentsSeen(es), SeenIds(es)),
           CommentsPlus(init.comments, CountedComments(es, f)),
           PostsPlus(init.posts, CountedPosts(es, f), parse),
           RecordsPlus(init.records, Counted(es, f), parse))
  }

  /** The line as `stats` reads it through `iterate_tweets`. */
  function EntryOf<L>(line: L, iterate: L -> seq<Record>, lineUser: L -> string): Entry
    requires iterate(line) != []
  {
    Entry(lineUser(line), iterate(line)[0], iterate(line)[1..])
  }

  /** Every line yields at least one record, its post. */
  predicate HasPosts<L>(lines: seq<L>, iterate: L -> seq<Record>) {
    forall k :: 0 <= k < |lines| ==> iterate(lines[k]) != []
  }

  /** The lines as `stats` reads them, in order. */
  function Entries<L>(lines: seq<L>, iterate: L -> seq<Record>, lineUser: L -> string): (es: seq<Entry>)
    requires HasPosts(lines, iterate)
    ensures |es| == |lines|
    ensures forall k :: 0 <= k < |lines| ==> es[k] == EntryOf(lines[k], iterate, lineUser)
  {
    if lines == [] then []
    else
      var init := lines[..|lines| - 1];
      assert forall k :: 0 <= k < |init| ==> init[k] == lines[k];
      Entries(init, iterate, lineUser) + [EntryOf(lines[|lines| - 1], iterate, lineUser)]
  }

  // ----- the stats loop, one step at a time -----

  /** The updates made for a counted comment. */
  function CommentAfter(c: CommentTotals, t: Record): CommentTotals {
    c.(count := c.count + 1,
       withVideo := c.withVideo + (if t.video != [] then 1 else 0),
       withImgs := c.withImgs + (if t.image != [] then 1 else 0))
  }

  /** The updates made for the counted post of the line `e`. */
  function PostAfter(p: PostTotals, e: Entry, parse: string -> int): PostTotals {
    var post := e.post;
    p.(count := p.count + 1,
       withVideo := p.withVideo + (if post.video != [] then 1 else 0),
       retweets := p.retweets + Engagement(parse, post.retweets),
       likes := p.likes + Engagement(parse, post.likes),
       withoutComments := p.withoutComments + (if post.commentsTotal == 0 then 1 else 0),
       withImgs := p.withImgs + (if post.image != [] then 1 else 0),
       usersPosting := Inc(p.usersPosting, e.lineUser),
       dateFrom := if p.dateFrom > post.time then post.time else p.dateFrom,
       dateTo := if p.dateTo < post.time then post.time else p.dateTo)
  }

  /** The updates every counted record, post or comment, makes. */
  function RecordAfter(r: RecordTotals, t: Record, parse: string -> int): RecordTotals {
    r.(retweets := r.retweets + Engagement(parse, t.retweets),
       likes := r.likes + Engagement(parse, t.likes),
       videos := r.videos + |t.video|,
       imgs := r.imgs + |t.image|,
       users := Inc(r.users, t.username),
       hashtags := AddAll(r.hashtags, LowerAll(t.hashtags)))
  }

  /** The `for t in gen` loop over the comments `ts`: every comment is
      seen, the kept ones are counted. */
  function AfterComments(s: Report, ts: seq<Record>, f: Filter, parse: string -> int): Report {
    if ts == [] then s
    else
      var r := AfterComments(s, ts[..|ts| - 1], f, parse);
      var t := ts[|ts| - 1];
      var r' := r.(seen := r.seen.(allComments := r.seen.allComments + 1));
      if f.Keeps(t.text) then r'.(comments := CommentAfter(r'.comments, t), records := RecordAfter(r'.records, t, parse))
      else r'
  }

  /** One pass of `for line in input_`: the line is counted, and only a
      post id not met before has its comments and its post processed. */
  function AfterLine(s: Report, e: Entry, f: Filter, parse: string -> int): Report {
    var s1 := s.(seen := s.seen.(allPosts := s.seen.allPosts + 1));
    if e.post.id in s1.seen.ids then s1
    else
      var s2 := AfterComments(s1.(seen := s1.seen.(ids := s1.seen.ids + [e.post.id])), e.comments, f, parse);
      if f.Keeps(e.post.text) then
        s2.(posts := PostAfter(s2.posts, e, parse), records := RecordAfter(s2.records, e.post, parse))
      else s2
  }

  /** The state after the lines `es`, line by line. */
  function Run(es: seq<Entry>, f: Filter, parse: string -> int, now: int): Report {
    if es == [] then Initial(now)
    else AfterLine(Run(es[..|es| - 1], f, parse, now), es[|es| - 1], f, parse)
  }

  lemma RunAppend(es: seq<Entry>, e: Entry, f: Filter, parse: string -> int, now: int)
    ensures Run(es + [e], f, parse, now) == AfterLine(Run(es, f, parse, now), e, f, parse)
  {
    assert (es + [e])[..|es|] == es;
  }

  /** Reading one more line of `lines` reads one more entry. */
  lemma EntriesNext<L>(lines: seq<L>, iterate: L -> seq<Record>, lineUser: L -> string, i: nat)
    requires i < |lines| && HasPosts(lines[..i], iterate) && iterate(lines[i]) != []
    ensures HasPosts(lines[..i + 1], iterate)
    ensures Entries(lines[..i + 1], iterate, lineUser)
         == Entries(lines[..i], iterate, lineUser) + [EntryOf(lines[i], iterate, lineUser)]
  {
    assert lines[..i + 1][..i] == lines[..i];
  }

  /** Reading one more line of `lines` takes one more step of `Run`. */
  lemma NextLine<L>(lines: seq<L>, iterate: L -> seq<Record>, lineUser: L -> string, i: nat,
                    f: Filter, parse: string -> int, now: int)
    requires i < |lines| && HasPosts(lines[..i], iterate) && iterate(lines[i]) != []
    ensures HasPosts(lines[..i + 1], iterate)
    ensures Run(Entries(lines[..i + 1], iterate, lineUser), f, parse, now)
         == AfterLine(Run(Entries(lines[..i], iterate, lineUser), f, parse, now),
                      EntryOf(lines[i], iterate, lineUser), f, parse)
  {
    EntriesNext(lines, iterate, lineUser, i);
    RunAppend(Entries(lines[..i], iterate, lineUser), EntryOf(lines[i], iterate, lineUser), f, parse, now);
  }

  // ----- the stats methods -----

  /** `for ht in tags: hashtags[ht.lower()] += 1`; implements `AddAll`
      over the lowered tags. */
  method CountTags(m: map<string, int>, tags: seq<string>) returns (m': map<string, int>)
    ensures m' == AddAll(m, LowerAll(tags))
  {
    m' := m;
    var k := 0;
    while k < |tags|
      invariant 0 <= k <= |tags|
      invariant m' == AddAll(m, LowerAll(tags[..k]))
    {
      ghost var done := LowerAll(tags[..k]);
      assert LowerAll(tags[..k + 1]) == done + [Lower(tags[k])] by {
        assert tags[..k + 1][..k] == tags[..k];
      }
      AddAllSnoc(m, done, Lower(tags[k]));
      m' := Inc(m', Lower(tags[k]));
      k := k + 1;
    }
    assert tags[..|tags|] == tags;
  }

  /** The comment-only counters of a counted comment; implements
      `CommentAfter`. */
  method CountComment(c: CommentTotals, t: Record) returns (c': CommentTotals)
    ensures c' == CommentAfter(c, t)
  {
    c' := c.(count := c.count + 1);
    if t.video != [] {
      c' := c'.(withVideo := c'.withVideo + 1);
    }
    if t.image != [] {
      c' := c'.(withImgs := c'.withImgs + 1);
    }
  }

  /** The post-only counters of a counted post; implements `PostAfter`. */
  method CountPost(p: PostTotals, e: Entry, parse: string -> int) returns (p': PostTotals)
    ensures p' == PostAfter(p, e, parse)
  {
    var post := e.post;
    var withVideo, retweets, likes, withoutComments, withImgs := p.withVideo, p.retweets, p.likes, p.withoutComments, p.withImgs;
    var usersPosting := Inc(p.usersPosting, e.lineUser);
    if post.video != [] {
      withVideo := withVideo + 1;
    }
    if post.retweets != "" {
      retweets := retweets + parse(post.retweets);
    }
    if post.likes != "" {
      likes := likes + parse(post.likes);
    }
    if post.commentsTotal == 0 {
      withoutComments := withoutComments + 1;
    }
    if post.image != [] {
      withImgs := withImgs + 1;
    }
    var dateFrom, dateTo := p.dateFrom, p.dateTo;
    var timestamp := post.time;
    if dateFrom > timestamp {
      dateFrom := timestamp;
    }
    if dateTo < timestamp {
      dateTo := timestamp;
    }
    p' := PostTotals(p.count + 1, withVideo, retweets, likes, withoutComments, withImgs, usersPosting, dateFrom, dateTo);
  }

  /** The counters a counted post or comment `t` adds to; implements
      `RecordAfter`. */
  method CountRecord(r: RecordTotals, t: Record, parse: string -> int) returns (r': RecordTotals)
    ensures r' == RecordAfter(r, t, parse)
  {
    r' := r.(users := Inc(r.users, t.username));
    var tags := CountTags(r'.hashtags, t.hashtags);
    r' := r'.(hashtags := tags);
    if t.video != [] {
      r' := r'.(videos := r'.videos + |t.video|);
    }
    if t.retweets != "" {
      r' := r'.(retweets := r'.retweets + parse(t.retweets));
    }
    if t.likes != "" {
      r' := r'.(likes := r'.likes + parse(t.likes));
    }
    r' := r'.(imgs := r'.imgs + |t.image|);
  }

  /** The `for t in gen` loop of `stats`; implements `AfterComments`. */
  method CountComments(st: Report, gen: seq<Record>, f: Filter, parse: string -> int) returns (st': Report)
    ensures st' == AfterComments(st, gen, f, parse)
  {
    st' := st;
    var j := 0;
    while j < |gen|
      invariant 0 <= j <= |gen|
      invariant st' == AfterComments(st, gen[..j], f, parse)
    {
      var t := gen[j];
      assert gen[..j + 1][..j] == gen[..j];
      st' := st'.(seen := st'.seen.(allComments := st'.seen.allComments + 1));
      if f.Keeps(t.text) {
        var comments := CountComment(st'.comments, t);
        var records := CountRecord(st'.records, t, parse);
        st' := st'.(comments := comments, records := records);
      }
      j := j + 1;
    }
    assert gen[..|gen|] == gen;
  }

  /** One iteration of `for line in input_`, after `next(gen)` found the
      post; implements `AfterLine`. */
  method StatsLine(st: Report, e: Entry, f: Filter, parse: string -> int) returns (st': Report)
    ensures st' == AfterLine(st, e, f, parse)
  {
    var s1 := st.(seen := st.seen.(allPosts := st.seen.allPosts + 1));
    if e.post.id in s1.seen.ids {
      return s1;
    }
    var o := s1.(seen := s1.seen.(ids := s1.seen.ids + [e.post.id]));
    assert o == Opened(st, e);
    var s2 := CountComments(o, e.comments, f, parse);
    NewLine(st, e, f, parse);
    if f.Keeps(e.post.text) {
      var posts := CountPost(s2.posts, e, parse);
      var records := CountRecord(s2.records, e.post, parse);
      st' := s2.(posts := posts, records := records);
    } else {
      st' := s2;
    }
  }

  /** `stats(input_, language, percentage)` up to its printing: `lines`
      are the input lines, `iterate` stands for `tweet.iterate_tweets`,
      `lineUser` for `line['username']`, `parse` for
      `s.parse_humanized_int`, and `now` for `datetime.now()`. It fails
      exactly when some line yields no record, at the first such line;
      otherwise its counters are the ones `Expected` describes. */
  method Stats<L>(lines: seq<L>, iterate: L -> seq<Record>, lineUser: L -> string, f: Filter,
                  parse: string -> int, now: int)
    returns (r: Result<Report, StatsError>)
    ensures r.Err? <==> !HasPosts(lines, iterate)
    ensures r.Err? ==> var n := r.error.line;
      n < |lines| && iterate(lines[n]) == [] && HasPosts(lines[..n], iterate)
    ensures r.Ok? ==> r.value == Expected(Entries(lines, iterate, lineUser), f, parse, now)
  {
    var st := Initial(now);
    var i := 0;
    while i < |lines|
      invariant 0 <= i <= |lines| && HasPosts(lines[..i], iterate)
      invariant st == Run(Entries(lines[..i], iterate, lineUser), f, parse, now)
    {
      var recs := iterate(lines[i]);
      if recs == [] {
        return Err(NoPostInLine(i));
      }
      var e := Entry(lineUser(lines[i]), recs[0], recs[1..]);
      st := StatsLine(st, e, f, parse);
      NextLine(lines, iterate, lineUser, i, f, parse, now);
      i := i + 1;
    }
    assert lines[..i] == lines;
    RunIsExpected(Entries(lines, iterate, lineUser), f, parse, now);
    return Ok(st);
  }

  // ----- sums over concatenations -----

  /** One more record adds its own measure. */
  lemma SumSnoc(rs: seq<Record>, r: Record, what: Measure, parse: string -> int)
    ensures Sum(rs + [r], what, parse) == Sum(rs, what, parse) + MeasureOf(what, r, parse)
  {
    assert (rs + [r])[..|rs|] == rs;
  }

  /** One more record is counted when it passes the test. */
  lemma CountSnoc(rs: seq<Record>, r: Record, test: Test)
    ensures Count(rs + [r], test) == Count(rs, test) + (if Passes(test, r) then 1 else 0)
  {
    assert (rs + [r])[..|rs|] == rs;
  }

  lemma {:induction false} SumConcat(a: seq<Record>, b: seq<Record>, what: Measure, parse: string -> int)
    ensures Sum(a + b, what, parse) == Sum(a, what, parse) + Sum(b, what, parse)
    decreases |b|
  {
    if b == [] {
      assert a + b == a;
    } else {
      var b0 := b[..|b| - 1];
      assert (a + b)[..|a + b| - 1] == a + b0;
      SumConcat(a, b0, what, parse);
    }
  }

  lemma {:induction false} CountConcat(a: seq<Record>, b: seq<Record>, test: Test)
    ensures Count(a + b, test) == Count(a, test) + Count(b, test)
    decreases |b|
  {
    if b == [] {
      assert a + b == a;
    } else {
      var b0 := b[..|b| - 1];
      assert (a + b)[..|a + b| - 1] == a + b0;
      CountConcat(a, b0, test);
    }
  }

  lemma {:induction false} TagsConcat(a: seq<Record>, b: seq<Record>)
    ensures Tags(a + b) == Tags(a) + Tags(b)
    decreases |b|
  {
    if b == [] {
      assert a + b == a;
    } else {
      var b0, last := b[..|b| - 1], b[|b| - 1];
      assert (a + b)[..|a + b| - 1] == a + b0;
      assert Tags(a + b) == Tags(a + b0) + LowerAll(last.hashtags);
      assert Tags(b) == Tags(b0) + LowerAll(last.hashtags);
      TagsConcat(a, b0);
      assert Tags(a) + Tags(b0) + LowerAll(last.hashtags) == Tags(a) + (Tags(b0) + LowerAll(last.hashtags));
    }
  }

  lemma {:induction false} UsernamesConcat(a: seq<Record>, b: seq<Record>)
    ensures Usernames(a + b) == Usernames(a) + Usernames(b)
    decreases |b|
  {
    if b == [] {
      assert a + b == a;
    } else {
      var b0 := b[..|b| - 1];
      assert (a + b)[..|a + b| - 1] == a + b0;
      UsernamesConcat(a, b0);
    }
  }

  // ----- each step grows the totals -----

  lemma CommentsPlusConcat(c: CommentTotals, a: seq<Record>, b: seq<Record>)
    ensures CommentsPlus(CommentsPlus(c, a), b) == CommentsPlus(c, a + b)
  {
    CountConcat(a, b, HasVideo);
    CountConcat(a, b, HasImage);
  }

  /** One counted comment is `CommentsPlus` of a one-element list. */
  lemma CommentsPlusOne(c: CommentTotals, t: Record)
    ensures CommentsPlus(c, [t]) == CommentAfter(c, t)
  {
    assert [] + [t] == [t];
    CountSnoc([], t, HasVideo);
    CountSnoc([], t, HasImage);
  }

  lemma RecordsPlusConcat(r: RecordTotals, a: seq<Record>, b: seq<Record>, parse: string -> int)
    ensures RecordsPlus(RecordsPlus(r, a, parse), b, parse) == RecordsPlus(r, a + b, parse)
  {
    var x, y := RecordsPlus(RecordsPlus(r, a, parse), b, parse), RecordsPlus(r, a + b, parse);
    assert x.retweets == y.retweets by { SumConcat(a, b, Retweets, parse); }
    assert x.likes == y.likes by { SumConcat(a, b, Likes, parse); }
    assert x.videos == y.videos by { SumConcat(a, b, Videos, parse); }
    assert x.imgs == y.imgs by { SumConcat(a, b, Images, parse); }
    assert x.users == y.users by {
      UsernamesConcat(a, b);
      AddAllAppend(r.users, Usernames(a), Usernames(b));
    }
    assert x.hashtags == y.hashtags by {
      TagsConcat(a, b);
      AddAllAppend(r.hashtags, Tags(a), Tags(b));
    }
  }

  /** One counted record is `RecordsPlus` of a one-element list. */
  lemma RecordsPlusOne(r: RecordTotals, t: Record, parse: string -> int)
    ensures RecordsPlus(r, [t], parse) == RecordAfter(r, t, parse)
  {
    var x, y := RecordsPlus(r, [t], parse), RecordAfter(r, t, parse);
    assert [] + [t] == [t];
    assert x.retweets == y.retweets by { SumSnoc([], t, Retweets, parse); }
    assert x.likes == y.likes by { SumSnoc([], t, Likes, parse); }
    assert x.videos == y.videos by { SumSnoc([], t, Videos, parse); }
    assert x.imgs == y.imgs by { SumSnoc([], t, Images, parse); }
    assert x.users == y.users by {
      assert Usernames([t]) == [t.username];
      AddAllOne(r.users, t.username);
    }
    assert x.hashtags == y.hashtags by {
      assert Tags([t]) == [] + LowerAll(t.hashtags);
      assert [] + LowerAll(t.hashtags) == LowerAll(t.hashtags);
    }
  }

  /** One counted post is `PostsPlus` growing by one line. */
  lemma PostsPlusAppend(p: PostTotals, cp: seq<Entry>, e: Entry, parse: string -> int)
    ensures PostsPlus(p, cp + [e], parse) == PostAfter(PostsPlus(p, cp, parse), e, parse)
  {
    var x, y := PostsPlus(p, cp + [e], parse), PostAfter(PostsPlus(p, cp, parse), e, parse);
    var ps, post := Posts(cp), e.post;
    assert (cp + [e])[..|cp|] == cp;
    assert Posts(cp + [e]) == ps + [post];
    assert x.count == y.count;
    assert x.withVideo == y.withVideo by { CountSnoc(ps, post, HasVideo); }
    assert x.retweets == y.retweets by { SumSnoc(ps, post, Retweets, parse); }
    assert x.likes == y.likes by { SumSnoc(ps, post, Likes, parse); }
    assert x.withoutComments == y.withoutComments by { CountSnoc(ps, post, WithoutComments); }
    assert x.withImgs == y.withImgs by { CountSnoc(ps, post, HasImage); }
    assert x.usersPosting == y.usersPosting by {
      var us := LineUsers(cp);
      assert LineUsers(cp + [e]) == us + [e.lineUser];
      assert (us + [e.lineUser])[..|us|] == us;
    }
    assert x.dateFrom == y.dateFrom by { assert (ps + [post])[..|ps|] == ps; }
    assert x.dateTo == y.dateTo by { assert (ps + [post])[..|ps|] == ps; }
  }

  /** The comment loop sees every comment and leaves the post counters
      alone. */
  lemma {:induction false} LoopSeen(s: Report, ts: seq<Record>, f: Filter, parse: string -> int)
    ensures AfterComments(s, ts, f, parse).seen == s.seen.(allComments := s.seen.allComments + |ts|)
    ensures AfterComments(s, ts, f, parse).posts == s.posts
  {
    if ts != [] {
      LoopSeen(s, ts[..|ts| - 1], f, parse);
    }
  }

  /** The comment loop counts the kept comments in `comments`. */
  lemma {:induction false} LoopComments(s: Report, ts: seq<Record>, f: Filter, parse: string -> int)
    ensures AfterComments(s, ts, f, parse).comments == CommentsPlus(s.comments, Kept(f, ts))
  {
    if ts == [] {
      assert Kept(f, ts) == [];
    } else {
      var init, t := ts[..|ts| - 1], ts[|ts| - 1];
      LoopComments(s, init, f, parse);
      var k := Kept(f, init);
      if f.Keeps(t.text) {
        assert Kept(f, ts) == k + [t];
        CommentsPlusOne(CommentsPlus(s.comments, k), t);
        CommentsPlusConcat(s.comments, k, [t]);
      } else {
        assert Kept(f, ts) == k + [];
        assert k + [] == k;
      }
    }
  }

  /** The comment loop counts the kept comments in `records`. */
  lemma {:induction false} LoopRecords(s: Report, ts: seq<Record>, f: Filter, parse: string -> int)
    ensures AfterComments(s, ts, f, parse).records == RecordsPlus(s.records, Kept(f, ts), parse)
  {
    if ts == [] {
      assert Kept(f, ts) == [];
    } else {
      var init, t := ts[..|ts| - 1], ts[|ts| - 1];
      LoopRecords(s, init, f, parse);
      var k := Kept(f, init);
      if f.Keeps(t.text) {
        assert Kept(f, ts) == k + [t];
        RecordsPlusOne(RecordsPlus(s.records, k, parse), t, parse);
        RecordsPlusConcat(s.records, k, [t], parse);
      } else {
        assert Kept(f, ts) == k + [];
        assert k + [] == k;
      }
    }
  }

  /** The state after the `count_all_posts` and `ids` updates of a new line. */
  function Opened(s: Report, e: Entry): Report {
    var s1 := s.(seen := s.seen.(allPosts := s.seen.allPosts + 1));
    s1.(seen := s1.seen.(ids := s1.seen.ids + [e.post.id]))
  }

  /** A line whose post id is new, as `AfterLine` computes it. */
  lemma NewLine(s: Report, e: Entry, f: Filter, parse: string -> int)
    requires e.post.id !in s.seen.ids
    ensures var s2 := AfterComments(Opened(s, e), e.comments, f, parse);
      AfterLine(s, e, f, parse)
      == if f.Keeps(e.post.text) then
           s2.(posts := PostAfter(s2.posts, e, parse), records := RecordAfter(s2.records, e.post, parse))
         else s2
  {
  }

  /** A line repeating a post id met before only counts the line. */
  lemma RepeatedLine(s: Report, e: Entry, f: Filter, parse: string -> int)
    requires e.post.id in s.seen.ids
    ensures AfterLine(s, e, f, parse) == s.(seen := s.seen.(allPosts := s.seen.allPosts + 1))
  {
  }

  /** A line with a new post id is counted, its comments are seen and its
      id is appended to `ids`. */
  lemma LineSeenNew(s: Report, e: Entry, f: Filter, parse: string -> int)
    requires e.post.id !in s.seen.ids
    ensures AfterLine(s, e, f, parse).seen
         == Seen(s.seen.allPosts + 1, s.seen.allComments + |e.comments|, s.seen.ids + [e.post.id])
  {
    var o := Opened(s, e);
    var a := AfterLine(s, e, f, parse).seen;
    NewLineSeen(s, e, f, parse);
    LoopSeen(o, e.comments, f, parse);
    assert a.allPosts == s.seen.allPosts + 1;
    assert a.allComments == s.seen.allComments + |e.comments|;
    assert a.ids == s.seen.ids + [e.post.id];
  }

  lemma NewLineSeen(s: Report, e: Entry, f: Filter, parse: string -> int)
    requires e.post.id !in s.seen.ids
    ensures AfterLine(s, e, f, parse).seen == AfterComments(Opened(s, e), e.comments, f, parse).seen
  {
    NewLine(s, e, f, parse);
  }

  lemma LineCommentsRepeated(s: Report, e: Entry, f: Filter, parse: string -> int)
    requires e.post.id in s.seen.ids
    ensures AfterLine(s, e, f, parse).comments == s.comments
  {
  }

  /** A line with a new post id counts its kept comments. */
  lemma LineCommentsNew(s: Report, e: Entry, f: Filter, parse: string -> int)
    requires e.post.id !in s.seen.ids
    ensures AfterLine(s, e, f, parse).comments == CommentsPlus(s.comments, Kept(f, e.comments))
  {
    var o := Opened(s, e);
    assert AfterLine(s, e, f, parse).comments == AfterComments(o, e.comments, f, parse).comments by {
      NewLine(s, e, f, parse);
    }
    LoopComments(o, e.comments, f, parse);
  }

  lemma LinePostsCounted(s: Report, e: Entry, f: Filter, parse: string -> int)
    requires e.post.id !in s.seen.ids && f.Keeps(e.post.text)
    ensures AfterLine(s, e, f, parse).posts == PostAfter(s.posts, e, parse)
  {
    NewLine(s, e, f, parse);
    LoopSeen(Opened(s, e), e.comments, f, parse);
  }

  lemma LinePostsSkipped(s: Report, e: Entry, f: Filter, parse: string -> int)
    requires !(e.post.id !in s.seen.ids && f.Keeps(e.post.text))
    ensures AfterLine(s, e, f, parse).posts == s.posts
  {
    if e.post.id !in s.seen.ids {
      NewLine(s, e, f, parse);
      LoopSeen(Opened(s, e), e.comments, f, parse);
    }
  }

  lemma LineRecords(s: Report, e: Entry, f: Filter, parse: string -> int)
    ensures var isNew := e.post.id !in s.seen.ids;
      AfterLine(s, e, f, parse).records
      == RecordsPlus(s.records, (if isNew then Kept(f, e.comments) else [])
                                + (if isNew && f.Keeps(e.post.text) then [e.post] else []), parse)
  {
    assert RecordsPlus(s.records, [], parse) == s.records;
    if e.post.id !in s.seen.ids {
      var kept := Kept(f, e.comments);
      var o := Opened(s, e);
      var r2 := AfterComments(o, e.comments, f, parse).records;
      assert r2 == RecordsPlus(s.records, kept, parse) by { LoopRecords(o, e.comments, f, parse); }
      NewLine(s, e, f, parse);
      if f.Keeps(e.post.text) {
        RecordsPlusOne(r2, e.post, parse);
        RecordsPlusConcat(s.records, kept, [e.post], parse);
      } else {
        assert kept + [] == kept;
      }
    } else {
      var none: seq<Record> := [];
      assert none + none == none;
    }
  }

  // ----- the step-by-step state is the described one -----

  lemma {:induction false} RunSeen(es: seq<Entry>, f: Filter, parse: string -> int, now: int)
    ensures Run(es, f, parse, now).seen == Seen(|es|, CommentsSeen(es), SeenIds(es))
  {
    if es != [] {
      var init, e := es[..|es| - 1], es[|es| - 1];
      var s := Run(init, f, parse, now);
      RunSeen(init, f, parse, now);
      if e.post.id in s.seen.ids {
        RepeatedLine(s, e, f, parse);
      } else {
        LineSeenNew(s, e, f, parse);
      }
    }
  }

  /** A new line adds its kept comments to those counted before. */
  lemma CommentsNewStep(s: Report, e: Entry, f: Filter, parse: string -> int, c0: CommentTotals, cc: seq<Record>)
    requires e.post.id !in s.seen.ids && s.comments == CommentsPlus(c0, cc)
    ensures AfterLine(s, e, f, parse).comments == CommentsPlus(c0, cc + Kept(f, e.comments))
  {
    LineCommentsNew(s, e, f, parse);
    CommentsPlusConcat(c0, cc, Kept(f, e.comments));
  }

  lemma {:induction false} RunComments(es: seq<Entry>, f: Filter, parse: string -> int, now: int)
    ensures Run(es, f, parse, now).comments == CommentsPlus(Initial(now).comments, CountedComments(es, f))
  {
    if es != [] {
      RunComments(es[..|es| - 1], f, parse, now);
      RunCommentsStep(es, f, parse, now);
    } else {
      RunCommentsEmpty(es, f, parse, now);
    }
  }

  lemma RunCommentsEmpty(es: seq<Entry>, f: Filter, parse: string -> int, now: int)
    requires es == []
    ensures Run(es, f, parse, now).comments == CommentsPlus(Initial(now).comments, CountedComments(es, f))
  {
  }

  /** One more line keeps `RunComments`'s equation. */
  lemma RunCommentsStep(es: seq<Entry>, f: Filter, parse: string -> int, now: int)
    requires es != []
    requires var init := es[..|es| - 1];
      Run(init, f, parse, now).comments == CommentsPlus(Initial(now).comments, CountedComments(init, f))
    ensures Run(es, f, parse, now).comments == CommentsPlus(Initial(now).comments, CountedComments(es, f))
  {
    if LastIsNew(es) {
      RunCommentsNew(es, f, parse, now);
    } else {
      RunCommentsRepeated(es, f, parse, now);
    }
  }

  /** The step of `RunComments` for a line whose post id is new. */
  lemma RunCommentsNew(es: seq<Entry>, f: Filter, parse: string -> int, now: int)
    requires es != [] && LastIsNew(es)
    requires var init := es[..|es| - 1];
      Run(init, f, parse, now).comments == CommentsPlus(Initial(now).comments, CountedComments(init, f))
    ensures Run(es, f, parse, now).comments == CommentsPlus(Initial(now).comments, CountedComments(es, f))
  {
    var init, e := es[..|es| - 1], es[|es| - 1];
    var s := Run(init, f, parse, now);
    assert s.seen.ids == SeenIds(init) by { RunSeen(init, f, parse, now); }
    CommentsNewStep(s, e, f, parse, Initial(now).comments, CountedComments(init, f));
  }

  /** The step of `RunComments` for a line repeating a post id. */
  lemma RunCommentsRepeated(es: seq<Entry>, f: Filter, parse: string -> int, now: int)
    requires es != [] && !LastIsNew(es)
    requires var init := es[..|es| - 1];
      Run(init, f, parse, now).comments == CommentsPlus(Initial(now).comments, CountedComments(init, f))
    ensures Run(es, f, parse, now).comments == CommentsPlus(Initial(now).comments, CountedComments(es, f))
  {
    var init, e := es[..|es| - 1], es[|es| - 1];
    var s := Run(init, f, parse, now);
    var cc := CountedComments(init, f);
    assert s.seen.ids == SeenIds(init) by { RunSeen(init, f, parse, now); }
    LineCommentsRepeated(s, e, f, parse);
    assert CountedComments(es, f) == cc + [];
    assert cc + [] == cc;
  }

  lemma {:induction false} RunPosts(es: seq<Entry>, f: Filter, parse: string -> int, now: int)
    ensures Run(es, f, parse, now).posts == PostsPlus(Initial(now).posts, CountedPosts(es, f), parse)
  {
    if es != [] {
      var init, e := es[..|es| - 1], es[|es| - 1];
      var s := Run(init, f, parse, now);
      var cp, p0 := CountedPosts(init, f), Initial(now).posts;
      RunPosts(init, f, parse, now);
      assert s.seen.ids == SeenIds(init) by { RunSeen(init, f, parse, now); }
      if e.post.id !in s.seen.ids && f.Keeps(e.post.text) {
        LinePostsCounted(s, e, f, parse);
        assert CountedPosts(es, f) == cp + [e];
        PostsPlusAppend(p0, cp, e, parse);
      } else {
        LinePostsSkipped(s, e, f, parse);
        assert CountedPosts(es, f) == cp + [];
        assert cp + [] == cp;
      }
    }
  }

  lemma {:induction false} RunRecords(es: seq<Entry>, f: Filter, parse: string -> int, now: int)
    ensures Run(es, f, parse, now).records == RecordsPlus(Initial(now).records, Counted(es, f), parse)
  {
    if es != [] {
      var init, e := es[..|es| - 1], es[|es| - 1];
      var s := Run(init, f, parse, now);
      var cr, r0 := Counted(init, f), Initial(now).records;
      RunRecords(init, f, parse, now);
      assert s.seen.ids == SeenIds(init) by { RunSeen(init, f, parse, now); }
      LineRecords(s, e, f, parse);
      var isNew := e.post.id !in s.seen.ids;
      var added := (if isNew then Kept(f, e.comments) else [])
                   + (if isNew && f.Keeps(e.post.text) then [e.post] else []);
      assert Counted(es, f) == cr + added;
      RecordsPlusConcat(r0, cr, added, parse);
    }
  }

  /** The loop of `stats` computes, group by group, what `Expected`
      describes. */
  lemma RunIsExpected(es: seq<Entry>, f: Filter, parse: string -> int, now: int)
    ensures Run(es, f, parse, now) == Expected(es, f, parse, now)
  {
    RunSeen(es, f, parse, now);
    RunComments(es, f, parse, now);
    RunPosts(es, f, parse, now);
    RunRecords(es, f, parse, now);
  }
}
