/** What the counters of `stats` in `scraper/cli/twitter.py` amount to,
    stated on `Expected`, the report `Stats` computes. */
module TwitterStats {
  import opened PyStr
  import opened Counting
  import opened TwitterCli
  import TwitterHashtags

  // ----- the ids list -----

  /** An id is in `ids` iff some line has a post with that id. */
  lemma {:induction false} SeenIdsMembers(es: seq<Entry>, id: string)
    ensures id in SeenIds(es) <==> exists k :: 0 <= k < |es| && es[k].post.id == id
  {
    if es != [] {
      var init := es[..|es| - 1];
      SeenIdsMembers(init, id);
      if id in SeenIds(es) && id !in SeenIds(init) {
        assert es[|es| - 1].post.id == id;
      }
      if exists k :: 0 <= k < |es| && es[k].post.id == id {
        var k :| 0 <= k < |es| && es[k].post.id == id;
        if k < |init| {
          assert init[k] == es[k];
        }
      }
    }
  }

  /** `ids` holds every id once. */
  lemma {:induction false} SeenIdsDistinct(es: seq<Entry>)
    ensures forall i, j :: 0 <= i < j < |SeenIds(es)| ==> SeenIds(es)[i] != SeenIds(es)[j]
  {
    if es != [] {
      SeenIdsDistinct(es[..|es| - 1]);
    }
  }

  /** Every line is seen, and each post is counted at most once. */
  lemma {:induction false} SeenIdsBound(es: seq<Entry>, f: Filter)
    ensures |CountedPosts(es, f)| <= |SeenIds(es)| <= |es|
  {
    if es != [] {
      SeenIdsBound(es[..|es| - 1], f);
    }
  }

  /** Every counted post's id is in `ids`. */
  lemma {:induction false} CountedPostsSeen(es: seq<Entry>, f: Filter)
    ensures forall i :: 0 <= i < |CountedPosts(es, f)| ==> CountedPosts(es, f)[i].post.id in SeenIds(es)
  {
    if es != [] {
      var init := es[..|es| - 1];
      CountedPostsSeen(init, f);
      assert forall id :: id in SeenIds(init) ==> id in SeenIds(es);
    }
  }

  /** No two counted posts have the same id: a post is counted only on
      the first line that carries it. */
  lemma {:induction false} CountedPostsDistinct(es: seq<Entry>, f: Filter)
    ensures forall i, j :: 0 <= i < j < |CountedPosts(es, f)| ==>
      CountedPosts(es, f)[i].post.id != CountedPosts(es, f)[j].post.id
  {
    if es != [] {
      var init := es[..|es| - 1];
      CountedPostsDistinct(init, f);
      CountedPostsSeen(init, f);
    }
  }

  // ----- a line whose post was seen before -----

  /** A line repeating an earlier post only adds to `count_all_posts`:
      every other counter, dict and the `ids` list stay as they were. */
  lemma DuplicateLine(es: seq<Entry>, e: Entry, f: Filter, parse: string -> int, now: int)
    requires e.post.id in SeenIds(es)
    ensures var x := Expected(es, f, parse, now);
      Expected(es + [e], f, parse, now) == x.(seen := x.seen.(allPosts := x.seen.allPosts + 1))
  {
    var es' := es + [e];
    assert es'[..|es'| - 1] == es;
    assert !LastIsNew(es');
    assert SeenIds(es') == SeenIds(es);
    assert CommentsSeen(es') == CommentsSeen(es);
    assert CountedComments(es', f) == CountedComments(es, f);
    assert CountedPosts(es', f) == CountedPosts(es, f);
    assert Counted(es', f) == Counted(es, f);
  }

  // ----- the language filter -----

  lemma {:induction false} KeptBound(f: Filter, rs: seq<Record>)
    ensures |Kept(f, rs)| <= |rs|
    ensures f.language == "" ==> Kept(f, rs) == rs
  {
    if rs != [] {
      var init := rs[..|rs| - 1];
      KeptBound(f, init);
      if f.language == "" {
        assert f.Keeps(rs[|rs| - 1].text);
        assert rs == init + [rs[|rs| - 1]];
      }
    }
  }

  /** `count_comments <= count_all_comments`; with no language both
      comment counts agree and every distinct post is counted. */
  lemma {:induction false} FilterBounds(es: seq<Entry>, f: Filter)
    ensures |CountedComments(es, f)| <= CommentsSeen(es)
    ensures f.language == "" ==> |CountedComments(es, f)| == CommentsSeen(es)
    ensures f.language == "" ==> |CountedPosts(es, f)| == |SeenIds(es)|
  {
    if es != [] {
      FilterBounds(es[..|es| - 1], f);
      KeptBound(f, es[|es| - 1].comments);
    }
  }

  /** The report's post and comment counts and the bounds between them. */
  lemma ReportCounts(es: seq<Entry>, f: Filter, parse: string -> int, now: int)
    ensures var x := Expected(es, f, parse, now);
      && x.seen.allPosts == |es| && x.posts.count <= |x.seen.ids| <= x.seen.allPosts
      && 0 <= x.comments.count <= x.seen.allComments
      && (f.language == "" ==> x.comments.count == x.seen.allComments && x.posts.count == |x.seen.ids|)
  {
    SeenIdsBound(es, f);
    FilterBounds(es, f);
  }

  // ----- totals over posts and comments -----

  lemma PostsSnoc(cp: seq<Entry>, e: Entry)
    ensures Posts(cp + [e]) == Posts(cp) + [e.post]
  {
    assert (cp + [e])[..|cp|] == cp;
  }

  /** The counted records are the counted comments and the counted posts,
      so a total over every counted record (`count_retweets`,
      `count_likes`, `count_videos`, `count_imgs`) is the comments' total
      plus the posts' total (`count_retweets_posts`, `count_likes_posts`). */
  lemma {:induction false} SumSplits(es: seq<Entry>, f: Filter, what: Measure, parse: string -> int)
    ensures Sum(Counted(es, f), what, parse)
         == Sum(CountedComments(es, f), what, parse) + Sum(Posts(CountedPosts(es, f)), what, parse)
  {
    if es != [] {
      var init := es[..|es| - 1];
      var e := es[|es| - 1];
      SumSplits(init, f, what, parse);
      var all, comments, posts := Counted(init, f), CountedComments(init, f), CountedPosts(init, f);
      if LastIsNew(es) {
        var kept := Kept(f, e.comments);
        var post := if f.Keeps(e.post.text) then [e.post] else [];
        assert Counted(es, f) == all + (kept + post);
        assert CountedComments(es, f) == comments + kept;
        SumConcat(all, kept + post, what, parse);
        SumConcat(kept, post, what, parse);
        SumConcat(comments, kept, what, parse);
        if f.Keeps(e.post.text) {
          assert CountedPosts(es, f) == posts + [e];
          PostsSnoc(posts, e);
          SumConcat(Posts(posts), [e.post], what, parse);
        } else {
          assert CountedPosts(es, f) == posts;
          assert post == [];
        }
      } else {
        assert Counted(es, f) == all;
        assert CountedComments(es, f) == comments;
        assert CountedPosts(es, f) == posts;
      }
    }
  }

  /** `count_retweets == count_retweets_posts + ` the comments' retweets,
      and likewise for likes. */
  lemma EngagementSplits(es: seq<Entry>, f: Filter, parse: string -> int, now: int)
    ensures var x := Expected(es, f, parse, now);
      && x.records.retweets == Sum(CountedComments(es, f), Retweets, parse) + x.posts.retweets
      && x.records.likes == Sum(CountedComments(es, f), Likes, parse) + x.posts.likes
  {
    SumSplits(es, f, Retweets, parse);
    SumSplits(es, f, Likes, parse);
  }

  /** `count_imgs` and `count_videos` are the lengths of the `image` and
      `video` lists summed over the counted comments and the counted
      posts. */
  lemma MediaTotals(es: seq<Entry>, f: Filter, parse: string -> int, now: int)
    ensures var x := Expected(es, f, parse, now);
      var ps := Posts(CountedPosts(es, f));
      && x.records.imgs == Sum(CountedComments(es, f), Images, parse) + Sum(ps, Images, parse)
      && x.records.videos == Sum(CountedComments(es, f), Videos, parse) + Sum(ps, Videos, parse)
  {
    SumSplits(es, f, Images, parse);
    SumSplits(es, f, Videos, parse);
  }

  // ----- the period of time -----

  /** `date_from` is the earliest of `now` and the post times, `date_to`
      the latest. */
  lemma {:induction false} TimesBracket(now: int, ps: seq<Record>)
    ensures MinTime(now, ps) <= now <= MaxTime(now, ps)
    ensures forall i :: 0 <= i < |ps| ==> MinTime(now, ps) <= ps[i].time <= MaxTime(now, ps)
    ensures MinTime(now, ps) == now || exists i :: 0 <= i < |ps| && MinTime(now, ps) == ps[i].time
    ensures MaxTime(now, ps) == now || exists i :: 0 <= i < |ps| && MaxTime(now, ps) == ps[i].time
  {
    if ps != [] {
      var init := ps[..|ps| - 1];
      TimesBracket(now, init);
      assert forall i :: 0 <= i < |init| ==> init[i] == ps[i];
    }
  }

  /** The printed period runs from the earliest counted post, or now, to
      the latest counted post, or now. */
  lemma Period(es: seq<Entry>, f: Filter, parse: string -> int, now: int)
    ensures var x := Expected(es, f, parse, now);
      var ps := Posts(CountedPosts(es, f));
      && x.posts.dateFrom <= now <= x.posts.dateTo
      && forall i :: 0 <= i < |ps| ==> x.posts.dateFrom <= ps[i].time <= x.posts.dateTo
  {
    TimesBracket(now, Posts(CountedPosts(es, f)));
  }

  // ----- the dicts -----

  /** `users` counts the author of every counted record, `users_posting`
      the line's user of every counted post, and `hashtags` every
      lower-cased hashtag of every counted record. */
  lemma Dicts(es: seq<Entry>, f: Filter, parse: string -> int, now: int, k: string)
    ensures var x := Expected(es, f, parse, now);
      && (k in x.records.users <==> k in Usernames(Counted(es, f)))
      && (k in x.records.users ==> x.records.users[k] == multiset(Usernames(Counted(es, f)))[k])
      && (k in x.posts.usersPosting <==> k in LineUsers(CountedPosts(es, f)))
      && (k in x.posts.usersPosting ==> x.posts.usersPosting[k] == multiset(LineUsers(CountedPosts(es, f)))[k])
      && (k in x.records.hashtags <==> k in Tags(Counted(es, f)))
      && (k in x.records.hashtags ==> x.records.hashtags[k] == multiset(Tags(Counted(es, f)))[k])
  {
    TallyCounts(Usernames(Counted(es, f)), k);
    TallyCounts(LineUsers(CountedPosts(es, f)), k);
    TallyCounts(Tags(Counted(es, f)), k);
  }

  /** Every key of `hashtags` is lower-case. */
  lemma HashtagsLower(es: seq<Entry>, f: Filter, parse: string -> int, now: int)
    ensures forall h :: h in Expected(es, f, parse, now).records.hashtags ==> Lower(h) == h
  {
    var ts := Tags(Counted(es, f));
    TwitterHashtags.TagsLower(Counted(es, f));
    forall h | h in Expected(es, f, parse, now).records.hashtags
      ensures Lower(h) == h
    {
      TallyCounts(ts, h);
    }
  }
}
