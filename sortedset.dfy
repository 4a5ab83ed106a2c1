/** Redis sorted sets: members with integer scores, enumerated by ascending
    score and, among equal scores, by member in lexicographic order. */
module SortedSet {
  import opened Strings

  /** A sorted set: each member with its score. */
  type ZSet = map<string, int>

  /** Redis's order on the members of a sorted set. */
  predicate Precedes(z: ZSet, a: string, b: string)
    requires a in z && b in z
  {
    z[a] < z[b] || (z[a] == z[b] && LexLess(a, b))
  }

  /** `s` lists members of `z` in strictly ascending order (hence without repeats). */
  predicate Ascending(z: ZSet, s: seq<string>)
  {
    && (forall i :: 0 <= i < |s| ==> s[i] in z)
    && (forall i, j :: 0 <= i < j < |s| ==> Precedes(z, s[i], s[j]))
  }

  predicate InRange(z: ZSet, lo: int, hi: int, m: string)
  {
    m in z && lo <= z[m] <= hi
  }

  /** What ZRANGEBYSCORE key lo hi promises: every member scored in [lo, hi], once, in order. */
  predicate IsRangeScan(z: ZSet, lo: int, hi: int, s: seq<string>)
  {
    && Ascending(z, s)
    && (forall m :: m in s ==> InRange(z, lo, hi, m))
    && (forall m :: m in z && lo <= z[m] <= hi ==> m in s)
  }

  lemma PrecedesTransitive(z: ZSet, a: string, b: string, c: string)
    requires a in z && b in z && c in z
    requires Precedes(z, a, b) && Precedes(z, b, c)
    ensures Precedes(z, a, c)
  {
    if z[a] == z[b] == z[c] {
      LexTransitive(a, b, c);
    }
  }

  lemma PrecedesTotal(z: ZSet, a: string, b: string)
    requires a in z && b in z && a != b
    ensures Precedes(z, a, b) || Precedes(z, b, a)
  {
    LexTotal(a, b);
  }

  lemma PrecedesAsymmetric(z: ZSet, a: string, b: string)
    requires a in z && b in z && Precedes(z, a, b)
    ensures !Precedes(z, b, a) && a != b
  {
    if z[a] == z[b] {
      LexAsymmetric(a, b);
      LexIrreflexive(a);
    }
  }

  /** Inserts a new member at its place in an ascending listing. */
  function InsertByScore(z: ZSet, s: seq<string>, m: string): (r: seq<string>)
    requires m in z && m !in s && Ascending(z, s)
    ensures Ascending(z, r)
    ensures forall x :: x in r <==> x in s || x == m
    ensures |r| == |s| + 1
  {
    if |s| == 0 then [m]
    else if Precedes(z, m, s[0]) then
      assert Ascending(z, [m] + s) by {
        forall j | 0 <= j < |s|
          ensures Precedes(z, m, s[j])
        {
          if j > 0 { PrecedesTransitive(z, m, s[0], s[j]); }
        }
      }
      [m] + s
    else
      PrecedesTotal(z, m, s[0]);
      var rest := InsertByScore(z, s[1..], m);
      assert Ascending(z, [s[0]] + rest) by {
        forall j | 0 <= j < |rest|
          ensures Precedes(z, s[0], rest[j])
        {
          if rest[j] != m {
            assert rest[j] in s[1..];
            var k :| 0 <= k < |s[1..]| && s[1..][k] == rest[j];
            assert s[k + 1] == rest[j];
          }
        }
      }
      [s[0]] + rest
  }

  /** Some ascending listing of the members in `members`. */
  ghost function Enumerate(z: ZSet, members: set<string>): (r: seq<string>)
    requires members <= z.Keys
    ensures Ascending(z, r)
    ensures forall x :: x in r <==> x in members
    ensures |r| == |members|
    decreases members
  {
    if members == {} then []
    else
      var m :| m in members;
      InsertByScore(z, Enumerate(z, members - {m}), m)
  }

  /** Two ascending listings of the same members are the same listing. */
  lemma {:induction false} AscendingUnique(z: ZSet, a: seq<string>, b: seq<string>)
    requires Ascending(z, a) && Ascending(z, b)
    requires forall x :: x in a <==> x in b
    ensures a == b
  {
    assert |a| > 0 ==> a[0] in b;
    assert |b| > 0 ==> b[0] in a;
    if |a| > 0 {
      if a[0] != b[0] {
        assert b[0] in a;
        var i :| 0 <= i < |a| && a[i] == b[0];
        assert a[0] in b;
        var j :| 0 <= j < |b| && b[j] == a[0];
        PrecedesAsymmetric(z, a[0], a[i]);
      }
      forall x
        ensures x in a[1..] <==> x in b[1..]
      {
        if x in a[1..] {
          var i :| 1 <= i < |a| && a[i] == x;
          PrecedesAsymmetric(z, a[0], a[i]);
          assert x in b;
          var j :| 0 <= j < |b| && b[j] == x;
        }
        if x in b[1..] {
          var j :| 1 <= j < |b| && b[j] == x;
          PrecedesAsymmetric(z, b[0], b[j]);
          assert x in a;
        }
      }
      AscendingUnique(z, a[1..], b[1..]);
      assert a == [a[0]] + a[1..] && b == [b[0]] + b[1..];
    }
  }

  /** The members of `z` scored within [lo, hi]. */
  function Within(z: ZSet, lo: int, hi: int): set<string>
  {
    set m | m in z && lo <= z[m] <= hi
  }

  /** The members of `z` scored within [lo, hi], as ZRANGEBYSCORE lists them. */
  ghost function RangeByScore(z: ZSet, lo: int, hi: int): (r: seq<string>)
    ensures IsRangeScan(z, lo, hi, r)
    ensures |r| == |Within(z, lo, hi)|
  {
    Enumerate(z, Within(z, lo, hi))
  }

  /** The listing ZRANGEBYSCORE returns is the only one meeting its promise. */
  lemma RangeScanIsRangeByScore(z: ZSet, lo: int, hi: int, s: seq<string>)
    requires IsRangeScan(z, lo, hi, s)
    ensures s == RangeByScore(z, lo, hi)
  {
    AscendingUnique(z, s, RangeByScore(z, lo, hi));
  }

  /** Adding a new member scored within [lo, hi] adds one to the count of members in that range. */
  lemma RangeGrowsByOne(z: ZSet, lo: int, hi: int, m: string, score: int)
    requires m !in z && lo <= score <= hi
    ensures |Within(z[m := score], lo, hi)| == |Within(z, lo, hi)| + 1
  {
    var before, after := Within(z, lo, hi), Within(z[m := score], lo, hi);
    forall k
      ensures k in after <==> k in before || k == m
    {
    }
    assert after == before + {m};
    assert m !in before;
  }
}
