/** Counting with a `defaultdict(lambda: 0)` and ranking its keys with
    `sorted(d, key=d.__getitem__, reverse=True)`. */
module Counting {

  /** `d[k] += 1` on a `defaultdict(lambda: 0)`. */
  function Inc(m: map<string, int>, k: string): map<string, int> {
    m[k := (if k in m then m[k] else 0) + 1]
  }

  /** `for k in ks: d[k] += 1`, starting from `m`. */
  function AddAll(m: map<string, int>, ks: seq<string>): map<string, int> {
    if ks == [] then m else Inc(AddAll(m, ks[..|ks| - 1]), ks[|ks| - 1])
  }

  /** The counts of a fresh `defaultdict` after counting `ks`. */
  function Tally(ks: seq<string>): map<string, int> {
    AddAll(map[], ks)
  }

  /** Counting two runs one after the other is counting their
      concatenation. */
  lemma {:induction false} AddAllAppend(m: map<string, int>, a: seq<string>, b: seq<string>)
    ensures AddAll(m, a + b) == AddAll(AddAll(m, a), b)
    decreases |b|
  {
    if b == [] {
      assert a + b == a;
    } else {
      var b0 := b[..|b| - 1];
      assert (a + b)[..|a + b| - 1] == a + b0;
      AddAllAppend(m, a, b0);
    }
  }

  /** Counting one more key is one more `d[k] += 1`. */
  lemma AddAllSnoc(m: map<string, int>, ks: seq<string>, k: string)
    ensures AddAll(m, ks + [k]) == Inc(AddAll(m, ks), k)
  {
    assert (ks + [k])[..|ks|] == ks;
  }

  /** Counting a single key is one `d[k] += 1`. */
  lemma AddAllOne(m: map<string, int>, k: string)
    ensures AddAll(m, [k]) == Inc(m, k)
  {
    assert [k][..0] == [];
  }

  /** A key is counted iff it occurs, and its count is its number of
      occurrences. */
  lemma {:induction false} TallyCounts(ks: seq<string>, k: string)
    ensures k in Tally(ks) <==> k in ks
    ensures k in Tally(ks) ==> Tally(ks)[k] == multiset(ks)[k]
  {
    if ks != [] {
      var init := ks[..|ks| - 1];
      assert ks == init + [ks[|ks| - 1]];
      TallyCounts(init, k);
    }
  }

  /** The keys of a `dict` filled from `ks`, in insertion order: each key
      where it first occurs. */
  function KeyOrder(ks: seq<string>): seq<string> {
    if ks == [] then []
    else
      var init := KeyOrder(ks[..|ks| - 1]);
      if ks[|ks| - 1] in init then init else init + [ks[|ks| - 1]]
  }

  /** Every key that occurs is listed exactly once. */
  lemma {:induction false} KeyOrderOnce(ks: seq<string>, k: string)
    ensures multiset(KeyOrder(ks))[k] == if k in ks then 1 else 0
  {
    if ks != [] {
      var init := ks[..|ks| - 1];
      assert ks == init + [ks[|ks| - 1]];
      KeyOrderOnce(init, k);
      KeyOrderOnce(init, ks[|ks| - 1]);
    }
  }

  /** Non-increasing by count. */
  predicate ByCountDescending(ks: seq<string>, m: map<string, int>)
    requires forall k :: k in ks ==> k in m
  {
    forall i, j :: 0 <= i < j < |ks| ==> m[ks[i]] >= m[ks[j]]
  }

  /** Places `k` after every key whose count is at least its own. */
  function InsertByCount(k: string, s: seq<string>, m: map<string, int>): (r: seq<string>)
    requires k in m && forall x :: x in s ==> x in m
    requires ByCountDescending(s, m)
    ensures multiset(r) == multiset(s) + multiset{k}
    ensures forall x :: x in r ==> x in m
    ensures ByCountDescending(r, m)
  {
    if s == [] then [k]
    else if m[s[0]] >= m[k] then
      var rest := InsertByCount(k, s[1..], m);
      KeepHead(k, s, rest, m);
      [s[0]] + rest
    else
      PrependSorted(k, s, m);
      [k] + s
  }

  /** Inserting behind the head of `s` keeps the head in front. */
  lemma KeepHead(k: string, s: seq<string>, rest: seq<string>, m: map<string, int>)
    requires s != [] && k in m && forall x :: x in s ==> x in m
    requires ByCountDescending(s, m) && m[s[0]] >= m[k]
    requires multiset(rest) == multiset(s[1..]) + multiset{k}
    requires forall x :: x in rest ==> x in m
    requires ByCountDescending(rest, m)
    ensures multiset([s[0]] + rest) == multiset(s) + multiset{k}
    ensures ByCountDescending([s[0]] + rest, m)
  {
    HeadBoundsRest(k, s, rest, m);
    PrependSorted(s[0], rest, m);
    assert s == [s[0]] + s[1..];
  }

  lemma HeadBoundsRest(k: string, s: seq<string>, rest: seq<string>, m: map<string, int>)
    requires s != [] && k in m && forall x :: x in s ==> x in m
    requires ByCountDescending(s, m) && m[s[0]] >= m[k]
    requires multiset(rest) == multiset(s[1..]) + multiset{k}
    requires forall x :: x in rest ==> x in m
    ensures forall j :: 0 <= j < |rest| ==> m[s[0]] >= m[rest[j]]
  {
    forall j | 0 <= j < |rest|
      ensures m[s[0]] >= m[rest[j]]
    {
      assert rest[j] in multiset(rest);
      if rest[j] != k {
        assert rest[j] in multiset(s[1..]);
        var p :| 0 <= p < |s[1..]| && s[1..][p] == rest[j];
        assert s[p + 1] == rest[j];
      }
    }
  }

  lemma PrependSorted(x: string, s: seq<string>, m: map<string, int>)
    requires x in m && forall y :: y in s ==> y in m
    requires ByCountDescending(s, m)
    requires forall j :: 0 <= j < |s| ==> m[x] >= m[s[j]]
    ensures ByCountDescending([x] + s, m)
  {
    var r := [x] + s;
    forall i, j | 0 <= i < j < |r|
      ensures m[r[i]] >= m[r[j]]
    {
      if i == 0 {
        assert r[j] == s[j - 1];
      } else {
        assert r[i] == s[i - 1] && r[j] == s[j - 1];
      }
    }
  }

  /** `sorted(keys, key=m.__getitem__, reverse=True)`: the same keys,
      ordered by non-increasing count. */
  function SortByCount(ks: seq<string>, m: map<string, int>): (r: seq<string>)
    requires forall k :: k in ks ==> k in m
    ensures multiset(r) == multiset(ks)
    ensures forall x :: x in r ==> x in m
    ensures ByCountDescending(r, m)
  {
    if ks == [] then []
    else
      var init := ks[..|ks| - 1];
      assert ks == init + [ks[|ks| - 1]];
      InsertByCount(ks[|ks| - 1], SortByCount(init, m), m)
  }
}
