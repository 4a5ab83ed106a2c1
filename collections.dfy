/** Python's collections.Counter over strings, as the dashboard uses it:
    update() with a list of tags and most_common() with no argument. */
module Collections {

  /** A Counter: a dict from tag to count whose keys keep the order in which
      they were first inserted. */
  datatype Counter = Counter(keys: seq<string>, counts: map<string, nat>)

  const Empty: Counter := Counter([], map[])

  /** The dict's invariant: every key listed once, and the listed keys are the map's keys. */
  ghost predicate Valid(c: Counter)
  {
    && (forall i, j :: 0 <= i < j < |c.keys| ==> c.keys[i] != c.keys[j])
    && (forall k :: k in c.keys <==> k in c.counts)
  }

  /** `counter[tag] = counter.get(tag, 0) + 1`: a new tag goes to the end of the keys. */
  function Bump(c: Counter, tag: string): Counter
  {
    if tag in c.counts then c.(counts := c.counts[tag := c.counts[tag] + 1])
    else Counter(c.keys + [tag], c.counts[tag := 1])
  }

  /** `counter.update(tags)`: one bump per tag, left to right. */
  function UpdateAll(c: Counter, tags: seq<string>): Counter
    decreases |tags|
  {
    if |tags| == 0 then c
    else Bump(UpdateAll(c, tags[..|tags| - 1]), tags[|tags| - 1])
  }

  /** Counter.update, element by element. */
  method Update(c: Counter, tags: seq<string>) returns (r: Counter)
    ensures r == UpdateAll(c, tags)
  {
    r := c;
    var i := 0;
    while i < |tags|
      invariant 0 <= i <= |tags|
      invariant r == UpdateAll(c, tags[..i])
    {
      assert tags[..i + 1][..i] == tags[..i];
      r := Bump(r, tags[i]);
      i := i + 1;
    }
    assert tags[..|tags|] == tags;
  }

  /** The counter built from nothing by counting `stream`. */
  function Tally(stream: seq<string>): Counter
  {
    UpdateAll(Empty, stream)
  }

  /** Updating with `a` and then with `b` is updating with `a + b`. */
  lemma {:induction false} UpdateAllAppend(c: Counter, a: seq<string>, b: seq<string>)
    ensures UpdateAll(c, a + b) == UpdateAll(UpdateAll(c, a), b)
  {
    if |b| > 0 {
      assert (a + b)[..|a + b| - 1] == a + b[..|b| - 1];
      UpdateAllAppend(c, a, b[..|b| - 1]);
    } else {
      assert a + b == a;
    }
  }

  /** Where `t` first occurs in `s`. */
  function FirstIndex(s: seq<string>, t: string): (i: nat)
    requires t in s
    ensures i < |s| && s[i] == t && t !in s[..i]
  {
    if s[0] == t then 0
    else
      assert s[1..][..FirstIndex(s[1..], t)] == s[1..FirstIndex(s[1..], t) + 1];
      1 + FirstIndex(s[1..], t)
  }

  lemma {:induction false} FirstIndexAppend(s: seq<string>, x: string, t: string)
    requires t in s + [x]
    ensures t in s ==> FirstIndex(s + [x], t) == FirstIndex(s, t)
    ensures t !in s ==> FirstIndex(s + [x], t) == |s|
  {
    var i := FirstIndex(s + [x], t);
    assert (s + [x])[..i] == if i < |s| then s[..i] else s;
    if t in s {
      var j := FirstIndex(s, t);
      assert (s + [x])[j] == t;
    }
  }

  /** The counter of a stream is a well-formed dict holding each tag of the
      stream with the number of times it occurs. */
  lemma {:induction false} TallyCounts(stream: seq<string>)
    ensures Valid(Tally(stream))
    ensures forall t :: t in Tally(stream).counts <==> t in stream
    ensures forall t :: t in Tally(stream).counts ==> Tally(stream).counts[t] == multiset(stream)[t]
  {
    if |stream| > 0 {
      var prefix, x := stream[..|stream| - 1], stream[|stream| - 1];
      assert stream == prefix + [x];
      TallyCounts(prefix);
      assert Tally(stream) == Bump(Tally(prefix), x);
    }
  }

  /** The counter's keys come in the order the tags first occur in the stream. */
  lemma {:induction false} TallyOrder(stream: seq<string>)
    ensures forall k :: k in Tally(stream).keys ==> k in stream
    ensures forall i, j :: 0 <= i < j < |Tally(stream).keys| ==>
      FirstIndex(stream, Tally(stream).keys[i]) < FirstIndex(stream, Tally(stream).keys[j])
  {
    if |stream| > 0 {
      var prefix, x := stream[..|stream| - 1], stream[|stream| - 1];
      assert stream == prefix + [x];
      TallyCounts(prefix);
      TallyOrder(prefix);
      var c := Tally(prefix);
      assert Tally(stream) == Bump(c, x);
      forall t | t in prefix
        ensures FirstIndex(stream, t) == FirstIndex(prefix, t)
      {
        FirstIndexAppend(prefix, x, t);
      }
      if x !in prefix {
        FirstIndexAppend(prefix, x, x);
      }
    }
  }

  /** What the counter of a stream holds: each tag of the stream once, in the
      order of first occurrence, with the number of times it occurs. */
  lemma TallyFacts(stream: seq<string>)
    ensures Valid(Tally(stream))
    ensures forall t :: t in Tally(stream).counts <==> t in stream
    ensures forall t :: t in Tally(stream).counts ==> Tally(stream).counts[t] == multiset(stream)[t]
    ensures forall i, j :: 0 <= i < j < |Tally(stream).keys| ==>
      FirstIndex(stream, Tally(stream).keys[i]) < FirstIndex(stream, Tally(stream).keys[j])
  {
    TallyCounts(stream);
    TallyOrder(stream);
  }

  /** One (tag, count) pair of Counter.items(). */
  datatype Entry = Entry(key: string, count: nat)

  /** Counter.items(), in key order. */
  function Items(c: Counter): (r: seq<Entry>)
    requires forall k :: k in c.keys ==> k in c.counts
    ensures |r| == |c.keys|
    ensures forall i :: 0 <= i < |r| ==> r[i] == Entry(c.keys[i], c.counts[c.keys[i]])
  {
    seq(|c.keys|, i requires 0 <= i < |c.keys| => Entry(c.keys[i], c.counts[c.keys[i]]))
  }

  /** The tags of a list of pairs, in order. */
  function Tags(s: seq<Entry>): (r: seq<string>)
    ensures |r| == |s| && forall i :: 0 <= i < |s| ==> r[i] == s[i].key
  {
    seq(|s|, i requires 0 <= i < |s| => s[i].key)
  }

  /** Counts never increase along `s`. */
  predicate Descending(s: seq<Entry>)
  {
    forall i, j :: 0 <= i < j < |s| ==> s[i].count >= s[j].count
  }

  /** Inserts `e` after every pair whose count is at least its own. */
  function InsertDesc(sorted: seq<Entry>, e: Entry): (r: seq<Entry>)
    requires Descending(sorted)
    ensures Descending(r)
    ensures |r| == |sorted| + 1
    ensures forall x :: x in r <==> x in sorted || x == e
  {
    if |sorted| == 0 then [e]
    else if sorted[0].count >= e.count then
      var rest := InsertDesc(sorted[1..], e);
      assert forall j :: 0 <= j < |rest| ==> sorted[0].count >= rest[j].count by {
        forall j | 0 <= j < |rest|
          ensures sorted[0].count >= rest[j].count
        {
          assert rest[j] in rest;
        }
      }
      [sorted[0]] + rest
    else [e] + sorted
  }

  /** Counter.most_common(): the pairs sorted by descending count with Python's
      stable sort, so that pairs of equal count keep their order. */
  function MostCommon(items: seq<Entry>): (r: seq<Entry>)
    ensures Descending(r)
    ensures |r| == |items|
    ensures forall x :: x in r <==> x in items
  {
    if |items| == 0 then []
    else InsertDesc(MostCommon(items[..|items| - 1]), items[|items| - 1])
  }

  /** The pairs of `s` whose count is `n`, in order. */
  function WithCount(s: seq<Entry>, n: nat): seq<Entry>
  {
    if |s| == 0 then []
    else (if s[0].count == n then [s[0]] else []) + WithCount(s[1..], n)
  }

  lemma {:induction false} WithCountAppend(a: seq<Entry>, b: seq<Entry>, n: nat)
    ensures WithCount(a + b, n) == WithCount(a, n) + WithCount(b, n)
  {
    if |a| > 0 {
      assert (a + b)[1..] == a[1..] + b;
      WithCountAppend(a[1..], b, n);
    } else {
      assert a + b == b;
    }
  }

  lemma {:induction false} WithCountAbove(s: seq<Entry>, n: nat)
    requires Descending(s) && (|s| == 0 || s[0].count < n)
    ensures WithCount(s, n) == []
  {
    if |s| > 0 {
      WithCountAbove(s[1..], n);
    }
  }

  lemma {:induction false} InsertDescWithCount(sorted: seq<Entry>, e: Entry, n: nat)
    requires Descending(sorted)
    ensures WithCount(InsertDesc(sorted, e), n) == WithCount(sorted, n) + (if e.count == n then [e] else [])
  {
    if |sorted| > 0 {
      if sorted[0].count >= e.count {
        var rest := InsertDesc(sorted[1..], e);
        InsertDescWithCount(sorted[1..], e, n);
        assert ([sorted[0]] + rest)[1..] == rest;
        var head := if sorted[0].count == n then [sorted[0]] else [];
        assert WithCount([sorted[0]] + rest, n) == head + WithCount(rest, n);
        assert WithCount(sorted, n) == head + WithCount(sorted[1..], n);
      } else {
        var r := [e] + sorted;
        assert r[1..] == sorted;
        if e.count == n {
          WithCountAbove(sorted, n);
        }
      }
    }
  }

  lemma TagsCons(e: Entry, s: seq<Entry>)
    ensures Tags([e] + s) == [e.key] + Tags(s)
  {
    var l, r := Tags([e] + s), [e.key] + Tags(s);
    forall i | 0 <= i < |l|
      ensures l[i] == r[i]
    {
      if i > 0 {
        assert ([e] + s)[i] == s[i - 1];
      }
    }
  }

  lemma {:induction false} InsertDescTags(sorted: seq<Entry>, e: Entry)
    requires Descending(sorted)
    ensures multiset(Tags(InsertDesc(sorted, e))) == multiset(Tags(sorted)) + multiset{e.key}
  {
    if |sorted| > 0 {
      if sorted[0].count >= e.count {
        var rest := InsertDesc(sorted[1..], e);
        InsertDescTags(sorted[1..], e);
        assert InsertDesc(sorted, e) == [sorted[0]] + rest;
        TagsCons(sorted[0], rest);
        assert sorted == [sorted[0]] + sorted[1..];
        TagsCons(sorted[0], sorted[1..]);
      } else {
        assert InsertDesc(sorted, e) == [e] + sorted;
        TagsCons(e, sorted);
      }
    }
  }

  /** most_common() is stable: for every count, the pairs with that count come
      out in the order they went in. */
  lemma {:induction false} MostCommonStable(items: seq<Entry>, n: nat)
    ensures WithCount(MostCommon(items), n) == WithCount(items, n)
  {
    if |items| > 0 {
      var prefix, x := items[..|items| - 1], items[|items| - 1];
      assert items == prefix + [x];
      MostCommonStable(prefix, n);
      InsertDescWithCount(MostCommon(prefix), x, n);
      WithCountAppend(prefix, [x], n);
      assert WithCount([x], n) == if x.count == n then [x] else [];
    }
  }

  /** most_common() lists the same tags as items(), each as often. */
  lemma {:induction false} MostCommonTags(items: seq<Entry>)
    ensures multiset(Tags(MostCommon(items))) == multiset(Tags(items))
  {
    if |items| > 0 {
      var prefix, x := items[..|items| - 1], items[|items| - 1];
      MostCommonTags(prefix);
      InsertDescTags(MostCommon(prefix), x);
      assert Tags(items) == Tags(prefix) + [x.key];
    }
  }

  /** The tags, in order, of `counter.most_common()` for the counter of `stream`. */
  function Ranking(stream: seq<string>): seq<string>
  {
    TallyFacts(stream);
    Tags(MostCommon(Items(Tally(stream))))
  }

  /** The tags of `tags` that occur exactly `n` times in `stream`, in order. */
  function WithFrequency(tags: seq<string>, stream: seq<string>, n: nat): seq<string>
  {
    if |tags| == 0 then []
    else (if multiset(stream)[tags[0]] == n then [tags[0]] else []) + WithFrequency(tags[1..], stream, n)
  }

  lemma {:induction false} DistinctMultiset(s: seq<string>, t: string)
    requires forall i, j :: 0 <= i < j < |s| ==> s[i] != s[j]
    ensures multiset(s)[t] == if t in s then 1 else 0
  {
    if |s| > 0 {
      assert s == [s[0]] + s[1..];
      DistinctMultiset(s[1..], t);
    }
  }

  /** Pairs that carry their tag's frequency: selecting by count is selecting by frequency. */
  lemma {:induction false} WithCountIsWithFrequency(s: seq<Entry>, stream: seq<string>, n: nat)
    requires forall e :: e in s ==> e.count == multiset(stream)[e.key]
    ensures Tags(WithCount(s, n)) == WithFrequency(Tags(s), stream, n)
  {
    if |s| > 0 {
      WithCountIsWithFrequency(s[1..], stream, n);
      assert Tags(s)[1..] == Tags(s[1..]);
      var head := if s[0].count == n then [s[0]] else [];
      assert Tags(head + WithCount(s[1..], n)) == Tags(head) + Tags(WithCount(s[1..], n));
    }
  }

  /** A tag absent from `a` is first found in `a + b` where it is first found in `b`, shifted. */
  lemma {:induction false} FirstIndexConcat(a: seq<string>, b: seq<string>, t: string)
    requires t !in a && t in b
    ensures FirstIndex(a + b, t) == |a| + FirstIndex(b, t)
  {
    if |a| > 0 {
      assert (a + b)[1..] == a[1..] + b;
      FirstIndexConcat(a[1..], b, t);
    } else {
      assert a + b == b;
    }
  }

  lemma {:induction false} WithFrequencyMembers(s: seq<string>, stream: seq<string>, n: nat, t: string)
    ensures t in WithFrequency(s, stream, n) <==> t in s && multiset(stream)[t] == n
  {
    if |s| > 0 {
      WithFrequencyMembers(s[1..], stream, n, t);
      assert s == [s[0]] + s[1..];
    }
  }

  /** Selecting the tags of one frequency keeps the order in which two of them first occur. */
  lemma {:induction false} WithFrequencyKeepsOrder(s: seq<string>, stream: seq<string>, n: nat, x: string, y: string)
    requires x in s && y in s && x != y
    requires x in WithFrequency(s, stream, n) && y in WithFrequency(s, stream, n)
    ensures FirstIndex(s, x) < FirstIndex(s, y)
        <==> FirstIndex(WithFrequency(s, stream, n), x) < FirstIndex(WithFrequency(s, stream, n), y)
  {
    var w := WithFrequency(s, stream, n);
    var head := if multiset(stream)[s[0]] == n then [s[0]] else [];
    assert w == head + WithFrequency(s[1..], stream, n);
    WithFrequencyMembers(s, stream, n, x);
    WithFrequencyMembers(s, stream, n, y);
    if s[0] != x && s[0] != y {
      WithFrequencyMembers(s[1..], stream, n, x);
      WithFrequencyMembers(s[1..], stream, n, y);
      WithFrequencyKeepsOrder(s[1..], stream, n, x, y);
      FirstIndexConcat(head, WithFrequency(s[1..], stream, n), x);
      FirstIndexConcat(head, WithFrequency(s[1..], stream, n), y);
    }
  }

  /** In a list without repeats, an element is first found where it is. */
  lemma {:induction false} DistinctFirstIndex(s: seq<string>, i: nat)
    requires forall a, b :: 0 <= a < b < |s| ==> s[a] != s[b]
    requires i < |s|
    ensures FirstIndex(s, s[i]) == i
  {
    if i > 0 {
      assert s[1..][i - 1] == s[i];
      DistinctFirstIndex(s[1..], i - 1);
    }
  }

  /** An element found at two places occurs at least twice. */
  lemma MultisetTwice(s: seq<string>, a: nat, b: nat)
    requires a < b < |s| && s[a] == s[b]
    ensures multiset(s)[s[a]] >= 2
  {
    assert s == s[..b] + [s[b]] + s[b + 1..];
    assert s[..b][a] == s[a];
  }

  /** What most_common() gives for the counter of a stream: every tag of the
      stream exactly once and nothing else; frequencies never increase along
      the list; and tags of equal frequency keep the order in which they first
      occur in the stream (the counter's key order). */
  lemma {:induction false} RankingFacts(stream: seq<string>)
    ensures forall t :: multiset(Ranking(stream))[t] == if t in stream then 1 else 0
    ensures forall i, j :: 0 <= i < j < |Ranking(stream)| ==>
      multiset(stream)[Ranking(stream)[i]] >= multiset(stream)[Ranking(stream)[j]]
    ensures forall n :: WithFrequency(Ranking(stream), stream, n) == WithFrequency(Tally(stream).keys, stream, n)
  {
    TallyFacts(stream);
    var c := Tally(stream);
    var items := Items(c);
    var ranked := MostCommon(items);
    assert Tags(items) == c.keys;
    assert forall e :: e in items ==> e.count == multiset(stream)[e.key];
    assert forall e :: e in ranked ==> e.count == multiset(stream)[e.key];
    MostCommonTags(items);
    forall t
      ensures multiset(Ranking(stream))[t] == if t in stream then 1 else 0
    {
      DistinctMultiset(c.keys, t);
    }
    forall i, j | 0 <= i < j < |ranked|
      ensures multiset(stream)[ranked[i].key] >= multiset(stream)[ranked[j].key]
    {
      assert ranked[i] in ranked && ranked[j] in ranked;
    }
    forall n: nat
      ensures WithFrequency(Ranking(stream), stream, n) == WithFrequency(c.keys, stream, n)
    {
      RankingSameByFrequency(stream, n);
    }
  }

  /** The ranking lists no tag twice. */
  lemma RankingDistinct(stream: seq<string>)
    ensures forall a, b :: 0 <= a < b < |Ranking(stream)| ==> Ranking(stream)[a] != Ranking(stream)[b]
  {
    RankingFacts(stream);
    var top := Ranking(stream);
    forall a, b | 0 <= a < b < |top|
      ensures top[a] != top[b]
    {
      if top[a] == top[b] {
        MultisetTwice(top, a, b);
      }
    }
  }

  /** Two tags of equal frequency in the ranking come in the order they first occur in the stream. */
  lemma {:induction false} TiesInFirstOccurrenceOrder(stream: seq<string>, i: nat, j: nat)
    requires i < j < |Ranking(stream)|
    requires multiset(stream)[Ranking(stream)[i]] == multiset(stream)[Ranking(stream)[j]]
    ensures Ranking(stream)[i] in stream && Ranking(stream)[j] in stream
    ensures FirstIndex(stream, Ranking(stream)[i]) < FirstIndex(stream, Ranking(stream)[j])
  {
    TallyFacts(stream);
    RankingFacts(stream);
    RankingDistinct(stream);
    var top, keys := Ranking(stream), Tally(stream).keys;
    var x, y := top[i], top[j];
    var n := multiset(stream)[x];
    assert x in multiset(top) && y in multiset(top);
    DistinctFirstIndex(top, i);
    DistinctFirstIndex(top, j);
    WithFrequencyMembers(top, stream, n, x);
    WithFrequencyMembers(top, stream, n, y);
    WithFrequencyKeepsOrder(top, stream, n, x, y);
    RankingSameByFrequency(stream, n);
    WithFrequencyMembers(keys, stream, n, x);
    WithFrequencyMembers(keys, stream, n, y);
    WithFrequencyKeepsOrder(keys, stream, n, x, y);
    var a, b := FirstIndex(keys, x), FirstIndex(keys, y);
    assert keys[a] == x && keys[b] == y;
  }

  /** The order of the ranking: no repeats, frequencies never increase, ties in first-occurrence order. */
  lemma RankingOrder(stream: seq<string>)
    ensures var top := Ranking(stream);
      && (forall i, j :: 0 <= i < j < |top| ==> top[i] != top[j])
      && (forall i, j :: 0 <= i < j < |top| ==> multiset(stream)[top[i]] >= multiset(stream)[top[j]])
      && (forall i, j :: 0 <= i < j < |top| && multiset(stream)[top[i]] == multiset(stream)[top[j]] ==>
            top[i] in stream && top[j] in stream && FirstIndex(stream, top[i]) < FirstIndex(stream, top[j]))
  {
    var top := Ranking(stream);
    RankingDistinct(stream);
    RankingFacts(stream);
    forall i, j | 0 <= i < j < |top| && multiset(stream)[top[i]] == multiset(stream)[top[j]]
      ensures top[i] in stream && top[j] in stream && FirstIndex(stream, top[i]) < FirstIndex(stream, top[j])
    {
      TiesInFirstOccurrenceOrder(stream, i, j);
    }
  }

  lemma {:induction false} RankingSameByFrequency(stream: seq<string>, n: nat)
    ensures WithFrequency(Ranking(stream), stream, n) == WithFrequency(Tally(stream).keys, stream, n)
  {
    TallyFacts(stream);
    var c := Tally(stream);
    var items := Items(c);
    var ranked := MostCommon(items);
    assert Tags(items) == c.keys;
    assert forall e :: e in items ==> e.count == multiset(stream)[e.key];
    MostCommonStable(items, n);
    WithCountIsWithFrequency(ranked, stream, n);
    WithCountIsWithFrequency(items, stream, n);
  }
}
