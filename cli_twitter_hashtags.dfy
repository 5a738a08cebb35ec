/** The `twitter hashtags` command of `scraper/cli/twitter.py`: every
    hashtag of every post and comment of every line is lower-cased and
    counted in a `defaultdict`, and the keys are listed by non-increasing
    count. */
module TwitterHashtags {
  import opened PyStr
  import opened Counting
  import opened TwitterCli

  /** The lower-cased hashtags in the order the three nested loops meet
      them: line by line, record by record, hashtag by hashtag.
      `iterate(line)` stands for `tweet.iterate_tweets(json.loads(line))`. */
  function AllTags<L>(lines: seq<L>, iterate: L -> seq<Record>): seq<string> {
    if lines == [] then [] else AllTags(lines[..|lines| - 1], iterate) + Tags(iterate(lines[|lines| - 1]))
  }

  /** `hashtags(input_)`: the dict it fills and the order in which it
      prints its keys. Each key is a lower-cased hashtag, counted once per
      occurrence, listed exactly once, and no key is listed before one
      with a higher count. */
  method Hashtags<L>(lines: seq<L>, iterate: L -> seq<Record>) returns (counts: map<string, int>, ranking: seq<string>)
    ensures counts == Tally(AllTags(lines, iterate))
    ensures forall h :: h in counts <==> h in AllTags(lines, iterate)
    ensures forall h :: h in counts ==> counts[h] == multiset(AllTags(lines, iterate))[h] && Lower(h) == h
    ensures forall h :: multiset(ranking)[h] == if h in counts then 1 else 0
    ensures forall h :: h in ranking ==> h in counts
    ensures ByCountDescending(ranking, counts)
  {
    counts := map[];
    var i := 0;
    while i < |lines|
      invariant 0 <= i <= |lines|
      invariant counts == Tally(AllTags(lines[..i], iterate))
    {
      var posts := iterate(lines[i]);
      ghost var before := counts;
      var j := 0;
      while j < |posts|
        invariant 0 <= j <= |posts|
        invariant counts == AddAll(before, Tags(posts[..j]))
      {
        counts := CountTags(counts, posts[j].hashtags);
        TagsNext(posts, j);
        AddAllAppend(before, Tags(posts[..j]), LowerAll(posts[j].hashtags));
        j := j + 1;
      }
      assert posts[..|posts|] == posts;
      AllTagsNext(lines, iterate, i);
      AddAllAppend(map[], AllTags(lines[..i], iterate), Tags(posts));
      i := i + 1;
    }
    assert lines[..|lines|] == lines;
    var all := AllTags(lines, iterate);
    TallyKeys(all);
    AllTagsLower(lines, iterate);
    ranking := SortByCount(KeyOrder(all), counts);
  }

  /** The inner loop over `post['hashtags']` grows the tags one record at
      a time. */
  lemma TagsNext(rs: seq<Record>, j: nat)
    requires j < |rs|
    ensures Tags(rs[..j + 1]) == Tags(rs[..j]) + LowerAll(rs[j].hashtags)
  {
    assert rs[..j + 1][..j] == rs[..j];
  }

  /** The loop over the input lines grows the tags one line at a time. */
  lemma AllTagsNext<L>(lines: seq<L>, iterate: L -> seq<Record>, i: nat)
    requires i < |lines|
    ensures AllTags(lines[..i + 1], iterate) == AllTags(lines[..i], iterate) + Tags(iterate(lines[i]))
  {
    assert lines[..i + 1][..i] == lines[..i];
  }

  /** The dict holds a key iff it was met, with its number of
      occurrences, and its keys in insertion order list each key once. */
  lemma TallyKeys(ks: seq<string>)
    ensures forall h :: h in Tally(ks) <==> h in ks
    ensures forall h :: h in Tally(ks) ==> Tally(ks)[h] == multiset(ks)[h]
    ensures forall h :: multiset(KeyOrder(ks))[h] == if h in Tally(ks) then 1 else 0
    ensures forall h :: h in KeyOrder(ks) ==> h in Tally(ks)
  {
    forall h
      ensures h in Tally(ks) <==> h in ks
      ensures h in Tally(ks) ==> Tally(ks)[h] == multiset(ks)[h]
      ensures multiset(KeyOrder(ks))[h] == if h in Tally(ks) then 1 else 0
    {
      TallyCounts(ks, h);
      KeyOrderOnce(ks, h);
    }
  }

  /** `lower()` leaves a lower-cased hashtag as it is. */
  lemma {:induction false} LowerAllLower(hs: seq<string>)
    ensures forall h :: h in LowerAll(hs) ==> Lower(h) == h
  {
    if hs != [] {
      LowerAllLower(hs[..|hs| - 1]);
      LowerIdempotent(hs[|hs| - 1]);
    }
  }

  lemma {:induction false} TagsLower(rs: seq<Record>)
    ensures forall h :: h in Tags(rs) ==> Lower(h) == h
  {
    if rs != [] {
      TagsLower(rs[..|rs| - 1]);
      LowerAllLower(rs[|rs| - 1].hashtags);
    }
  }

  /** Every counted key is already lower-case. */
  lemma {:induction false} AllTagsLower<L>(lines: seq<L>, iterate: L -> seq<Record>)
    ensures forall h :: h in AllTags(lines, iterate) ==> Lower(h) == h
  {
    if lines != [] {
      AllTagsLower(lines[..|lines| - 1], iterate);
      TagsLower(iterate(lines[|lines| - 1]));
    }
  }
}
