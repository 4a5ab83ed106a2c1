/** The analytics handler of app.py (GET /api/v1/analytics/dashboard): list a
    user's submission ids in a time window, read each record, and report the
    number of ids, the hashtags by popularity and the mean sentiment. */
module Dashboard {
  import opened Wrappers
  import opened Strings
  import opened SortedSet
  import opened Redis
  import opened Keys
  import C = Collections
  import opened BackgroundTasks
  import L = Limiter
  import S = Submit

  /** A start_time or end_time query parameter: absent (or empty), a time that
      parses to `seconds` since the epoch, or text that does not parse. */
  datatype TimeArg = Absent | Epoch(seconds: int) | Malformed

  datatype Query = Query(userId: Option<string>, platform: Option<string>, startTime: TimeArg, endTime: TimeArg)

  /** The handler's answer: a 400 for each of its three checks, or the report. */
  datatype DashboardOutcome =
    | MissingUserId
    | InvalidTimeFormat
    | InvalidRange
    | Report(mentions: nat, topHashtags: seq<string>, sentiment: real)

  /** The window opens at the epoch when no start is given. */
  function StartEpoch(q: Query): int
  {
    if q.startTime.Epoch? then q.startTime.seconds else 0
  }

  /** The window closes at the current time when no end is given. */
  function EndEpoch(db: Db, q: Query): int
  {
    if q.endTime.Epoch? then q.endTime.seconds else db.now
  }

  /** A platform filter applies only when the parameter is non-empty. */
  predicate Filtering(platform: Option<string>)
  {
    platform.Some? && platform.value != ""
  }

  /** A record enters the aggregates when it has at least one field and, under
      a filter, its platform is the one asked for. */
  predicate Counted(rec: Record, platform: Option<string>)
  {
    rec != NoFields && !(Filtering(platform) && rec.platform != Some(platform.value))
  }

  /** The tags a record contributes: its comma-separated hashtags, none when the field is empty or absent. */
  function RecordTags(rec: Record): (tags: seq<string>)
    ensures forall t :: t in tags ==> ',' !in t
  {
    var h := rec.hashtags.GetOr("");
    if h == "" then [] else Split(h, ',')
  }

  /** The sentiment a record contributes, 0.0 when it has none. */
  function RecordSentiment(rec: Record): real
  {
    rec.sentiment.GetOr(0.0)
  }

  /** The records of `ids`, in order, that enter the aggregates. */
  function Retained(db: Db, ids: seq<string>, platform: Option<string>): (recs: seq<Record>)
    ensures |recs| <= |ids|
    ensures forall r :: r in recs ==> Counted(r, platform)
    decreases |ids|
  {
    if |ids| == 0 then []
    else
      var rest := Retained(db, ids[..|ids| - 1], platform);
      var rec := HashAt(db, RecordKey(ids[|ids| - 1]));
      if Counted(rec, platform) then rest + [rec] else rest
  }

  /** The tags of `recs`, record after record, as the counter is fed them. */
  function TagStream(recs: seq<Record>): (stream: seq<string>)
    decreases |recs|
  {
    if |recs| == 0 then [] else TagStream(recs[..|recs| - 1]) + RecordTags(recs[|recs| - 1])
  }

  function SentimentSum(recs: seq<Record>): (total: real)
    decreases |recs|
  {
    if |recs| == 0 then 0.0 else SentimentSum(recs[..|recs| - 1]) + RecordSentiment(recs[|recs| - 1])
  }

  /** The mean of `n` scores adding up to `total`, 0.0 when there are none. */
  function Mean(total: real, n: nat): (mean: real)
  {
    if n == 0 then 0.0 else total / n as real
  }

  /** The ids the handler lists for a query naming a user. */
  ghost function Listed(db: Db, q: Query): (ids: seq<string>)
    requires q.userId.Some?
  {
    RangeByScore(ZSetAt(db, IndexKey(q.userId.value)), StartEpoch(q), EndEpoch(db, q))
  }

  /** What the handler answers for `q` against the store `db`. */
  ghost function Summarize(db: Db, q: Query): (out: DashboardOutcome)
  {
    if q.userId.None? || q.userId.value == "" then MissingUserId
    else if q.startTime.Malformed? || q.endTime.Malformed? then InvalidTimeFormat
    else if StartEpoch(q) > EndEpoch(db, q) then InvalidRange
    else
      var ids := Listed(db, q);
      var recs := Retained(db, ids, q.platform);
      Report(|ids|, C.Ranking(TagStream(recs)), Mean(SentimentSum(recs), |recs|))
  }

  /** One more id: its record joins the retained ones exactly when it is counted. */
  lemma RetainedStep(db: Db, ids: seq<string>, i: nat, platform: Option<string>)
    requires i < |ids|
    ensures var rec := HashAt(db, RecordKey(ids[i]));
      Retained(db, ids[..i + 1], platform)
        == if Counted(rec, platform) then Retained(db, ids[..i], platform) + [rec] else Retained(db, ids[..i], platform)
  {
    assert ids[..i + 1][..i] == ids[..i];
  }

  /** One more retained record feeds its tags to the counter and its score to the total. */
  lemma AggregateStep(recs: seq<Record>, rec: Record)
    ensures TagStream(recs + [rec]) == TagStream(recs) + RecordTags(rec)
    ensures SentimentSum(recs + [rec]) == SentimentSum(recs) + RecordSentiment(rec)
    ensures C.Tally(TagStream(recs + [rec])) == C.UpdateAll(C.Tally(TagStream(recs)), RecordTags(rec))
  {
    assert (recs + [rec])[..|recs|] == recs;
    C.UpdateAllAppend(C.Empty, TagStream(recs), RecordTags(rec));
  }

  /** The aggregates over the first `i` ids. */
  ghost predicate Aggregated(db: Db, ids: seq<string>, i: nat, platform: Option<string>,
                             counter: C.Counter, total: real, count: nat)
    requires i <= |ids|
  {
    var recs := Retained(db, ids[..i], platform);
    counter == C.Tally(TagStream(recs)) && total == SentimentSum(recs) && count == |recs|
  }

  /** Visiting the next id carries the aggregates over `i` ids to `i + 1`. */
  lemma VisitKeepsAggregated(db: Db, ids: seq<string>, i: nat, platform: Option<string>,
                             counter: C.Counter, total: real, count: nat,
                             counter': C.Counter, total': real, count': nat)
    requires i < |ids| && Aggregated(db, ids, i, platform, counter, total, count)
    requires var rec := HashAt(db, RecordKey(ids[i]));
      if Counted(rec, platform)
      then counter' == C.UpdateAll(counter, RecordTags(rec)) && total' == total + RecordSentiment(rec) && count' == count + 1
      else counter' == counter && total' == total && count' == count
    ensures Aggregated(db, ids, i + 1, platform, counter', total', count')
  {
    RetainedStep(db, ids, i, platform);
    AggregateStep(Retained(db, ids[..i], platform), HashAt(db, RecordKey(ids[i])));
  }

  /** The body of get_dashboard's loop for one id: skip it when it has no
      record or, under a filter, a record of another platform; otherwise count
      its tags and add its score. */
  method Visit(store: Store, id: string, platform: Option<string>, counter: C.Counter, total: real, count: nat)
    returns (counter': C.Counter, total': real, count': nat)
    ensures var rec := HashAt(store.Snapshot(), RecordKey(id));
      if Counted(rec, platform)
      then counter' == C.UpdateAll(counter, RecordTags(rec)) && total' == total + RecordSentiment(rec) && count' == count + 1
      else counter' == counter && total' == total && count' == count
  {
    counter', total', count' := counter, total, count;
    var rec := store.HGetAll(RecordKey(id));
    if rec == NoFields {
      return;
    }
    if Filtering(platform) && rec.platform != Some(platform.value) {
      return;
    }
    var hashtags := rec.hashtags.GetOr("");
    if hashtags != "" {
      counter' := C.Update(counter, Split(hashtags, ','));
    }
    total' := total + rec.sentiment.GetOr(0.0);
    count' := count + 1;
  }

  /** The loop of get_dashboard over the listed ids. */
  method Aggregate(store: Store, ids: seq<string>, platform: Option<string>)
    returns (counter: C.Counter, total: real, count: nat)
    ensures var recs := Retained(store.Snapshot(), ids, platform);
      && counter == C.Tally(TagStream(recs))
      && total == SentimentSum(recs)
      && count == |recs|
  {
    counter, total, count := C.Empty, 0.0, 0;
    ghost var db := store.Snapshot();
    for i := 0 to |ids|
      invariant Aggregated(db, ids, i, platform, counter, total, count)
    {
      ghost var before := (counter, total, count);
      counter, total, count := Visit(store, ids[i], platform, counter, total, count);
      VisitKeepsAggregated(db, ids, i, platform, before.0, before.1, before.2, counter, total, count);
    }
    assert ids[..|ids|] == ids;
  }

  /** get_dashboard. */
  method GetDashboard(store: Store, q: Query) returns (out: DashboardOutcome)
    ensures out == Summarize(store.Snapshot(), q)
  {
    if q.userId.None? || q.userId.value == "" {
      return MissingUserId;
    }
    if q.startTime.Malformed? || q.endTime.Malformed? {
      return InvalidTimeFormat;
    }
    var startEpoch := if q.startTime.Epoch? then q.startTime.seconds else 0;
    var endEpoch := if q.endTime.Epoch? then q.endTime.seconds else store.now;
    if startEpoch > endEpoch {
      return InvalidRange;
    }
    var ids := store.ZRangeByScore(IndexKey(q.userId.value), startEpoch, endEpoch);
    var mentions := |ids|;
    var counter, total, count := Aggregate(store, ids, q.platform);
    ghost var recs := Retained(store.Snapshot(), ids, q.platform);
    C.TallyFacts(TagStream(recs));
    var top := C.Tags(C.MostCommon(C.Items(counter)));
    var sentiment := if count > 0 then total / count as real else 0.0;
    out := Report(mentions, top, sentiment);
  }

  /** The handler's three refusals, each exactly when its check fails. */
  lemma ErrorsIff(db: Db, q: Query)
    ensures Summarize(db, q) == MissingUserId <==> q.userId.None? || q.userId.value == ""
    ensures Summarize(db, q) == InvalidTimeFormat <==>
      q.userId.Some? && q.userId.value != "" && (q.startTime.Malformed? || q.endTime.Malformed?)
    ensures Summarize(db, q) == InvalidRange <==>
      && q.userId.Some? && q.userId.value != "" && !q.startTime.Malformed? && !q.endTime.Malformed?
      && StartEpoch(q) > EndEpoch(db, q)
  {
  }

  /** The mention count is the number of the user's ids scored within the
      window, whether or not their record exists or matches the platform: it
      can exceed the number of records the aggregates are taken over. */
  lemma MentionsCountEveryListedId(db: Db, q: Query)
    ensures var out := Summarize(db, q);
      out.Report? ==>
        && out.mentions == |Within(ZSetAt(db, IndexKey(q.userId.value)), StartEpoch(q), EndEpoch(db, q))|
        && out.mentions >= |Retained(db, Listed(db, q), q.platform)|
  {
  }

  lemma {:induction false} TagStreamMembers(recs: seq<Record>, t: string)
    ensures t in TagStream(recs) <==> exists r :: r in recs && t in RecordTags(r)
    decreases |recs|
  {
    if |recs| > 0 {
      var init, last := recs[..|recs| - 1], recs[|recs| - 1];
      TagStreamMembers(init, t);
      assert recs == init + [last];
      if t in TagStream(recs) && t !in RecordTags(last) {
        var r :| r in init && t in RecordTags(r);
        assert r in recs;
      }
    }
  }

  /** A retained record whose hashtags are absent or empty feeds no tag to the counter. */
  lemma EmptyHashtagsAddNothing(recs: seq<Record>, rec: Record)
    requires rec.hashtags == None || rec.hashtags == Some("")
    ensures TagStream(recs + [rec]) == TagStream(recs)
  {
    AggregateStep(recs, rec);
  }

  /** The ranked tags of some records are the tags those records hold. */
  lemma RankedTagsMembers(recs: seq<Record>)
    ensures forall t :: t in C.Ranking(TagStream(recs)) <==> exists r :: r in recs && t in RecordTags(r)
  {
    var stream := TagStream(recs);
    var top := C.Ranking(stream);
    C.RankingFacts(stream);
    forall t
      ensures t in top <==> exists r :: r in recs && t in RecordTags(r)
    {
      TagStreamMembers(recs, t);
      assert t in top <==> t in multiset(top);
    }
  }

  /** The top hashtags: every tag of a retained record exactly once and no
      other; frequencies never increase along the list; tags of equal
      frequency in the order first seen along the ascending-score scan. */
  lemma TopHashtagsFacts(db: Db, q: Query)
    ensures var out := Summarize(db, q);
      out.Report? ==>
        var recs := Retained(db, Listed(db, q), q.platform);
        var stream := TagStream(recs);
        var top := out.topHashtags;
        && (forall t :: t in top <==> exists r :: r in recs && t in RecordTags(r))
        && (forall i, j :: 0 <= i < j < |top| ==> top[i] != top[j])
        && (forall i, j :: 0 <= i < j < |top| ==> multiset(stream)[top[i]] >= multiset(stream)[top[j]])
        && (forall i, j :: 0 <= i < j < |top| && multiset(stream)[top[i]] == multiset(stream)[top[j]] ==>
              top[i] in stream && top[j] in stream && C.FirstIndex(stream, top[i]) < C.FirstIndex(stream, top[j]))
  {
    if Summarize(db, q).Report? {
      ReportOf(db, q);
      var recs := Retained(db, Listed(db, q), q.platform);
      var stream := TagStream(recs);
      var top := C.Ranking(stream);
      assert Summarize(db, q).topHashtags == top;
      RankedTagsMembers(recs);
      C.RankingOrder(stream);
    }
  }

  lemma {:induction false} SentimentSumBounds(recs: seq<Record>)
    requires forall r :: r in recs ==> -1.0 <= RecordSentiment(r) <= 1.0
    ensures -(|recs| as real) <= SentimentSum(recs) <= |recs| as real
    decreases |recs|
  {
    if |recs| > 0 {
      var init := recs[..|recs| - 1];
      assert forall r :: r in init ==> r in recs;
      assert recs[|recs| - 1] in recs;
      SentimentSumBounds(init);
    }
  }

  /** The mean times the number of scores gives back their total; the mean of
      `n` scores in [-1, 1] lies in [-1, 1]. */
  lemma MeanFacts(total: real, n: nat)
    ensures n > 0 ==> Mean(total, n) * (n as real) == total
    ensures -(n as real) <= total <= n as real ==> -1.0 <= Mean(total, n) <= 1.0
  {
    if n > 0 {
      var m, k := total / n as real, n as real;
      assert m * k == total;
      assert (m - 1.0) * k == total - k;
      assert (m + 1.0) * k == total + k;
    }
  }

  /** The sentiment score is the mean over the retained records, 0.0 when none
      is retained; when every retained score is a polarity in [-1, 1], so is the mean. */
  lemma SentimentIsMean(db: Db, q: Query)
    ensures var out := Summarize(db, q);
      out.Report? ==>
        var recs := Retained(db, Listed(db, q), q.platform);
        && (|recs| == 0 ==> out.sentiment == 0.0)
        && (|recs| > 0 ==> out.sentiment == SentimentSum(recs) / (|recs| as real))
        && ((forall r :: r in recs ==> -1.0 <= RecordSentiment(r) <= 1.0) ==> -1.0 <= out.sentiment <= 1.0)
  {
    var out := Summarize(db, q);
    if out.Report? {
      var recs := Retained(db, Listed(db, q), q.platform);
      var total := SentimentSum(recs);
      assert out.sentiment == Mean(total, |recs|);
      MeanFacts(total, |recs|);
      if forall r :: r in recs ==> -1.0 <= RecordSentiment(r) <= 1.0 {
        SentimentSumBounds(recs);
      }
    }
  }

  /** The records on platform `p`, in order. */
  function OnPlatform(recs: seq<Record>, p: string): (r: seq<Record>)
    ensures forall x :: x in r ==> x in recs && x.platform == Some(p)
    decreases |recs|
  {
    if |recs| == 0 then []
    else
      var rest := OnPlatform(recs[..|recs| - 1], p);
      if recs[|recs| - 1].platform == Some(p) then rest + [recs[|recs| - 1]] else rest
  }

  /** An empty platform parameter filters nothing; a non-empty one keeps, in
      order, exactly the unfiltered records on that platform. */
  lemma {:induction false} PlatformFilterNarrows(db: Db, ids: seq<string>, p: string)
    ensures Retained(db, ids, Some("")) == Retained(db, ids, None)
    ensures p != "" ==> Retained(db, ids, Some(p)) == OnPlatform(Retained(db, ids, None), p)
    decreases |ids|
  {
    if |ids| > 0 {
      var init := ids[..|ids| - 1];
      PlatformFilterNarrows(db, init, p);
      var unfiltered := Retained(db, init, None);
      var rec := HashAt(db, RecordKey(ids[|ids| - 1]));
      if rec != NoFields {
        assert (unfiltered + [rec])[..|unfiltered|] == unfiltered;
      }
    }
  }

  /** The hashtags process_submission stores read back on the dashboard as the
      tags extracted from the content, and its sentiment as the score given. */
  lemma ProcessedRecordReadsBack(db: Db, platform: string, content: string, timestamp: string, epoch: int,
                                 analysisId: string, userId: string, sentiment: real)
    ensures var rec := HashAt(ProcessWrites(db, platform, content, timestamp, epoch, analysisId, userId, sentiment),
                              RecordKey(analysisId));
      && RecordTags(rec) == ExtractHashtags(content)
      && RecordSentiment(rec) == sentiment
      && Counted(rec, Some(platform))
  {
    ProcessOverwrites(db, platform, content, timestamp, epoch, analysisId, userId, sentiment);
    JoinedTagsSplitBack(content);
  }

  /** The dashboard reads only the indexes, the hashes and the clock: the
      limiter's counters never change what it reports. */
  lemma {:induction false} RetainedReadsHashes(a: Db, b: Db, ids: seq<string>, platform: Option<string>)
    requires a.hashes == b.hashes
    ensures Retained(a, ids, platform) == Retained(b, ids, platform)
    decreases |ids|
  {
    if |ids| > 0 {
      RetainedReadsHashes(a, b, ids[..|ids| - 1], platform);
    }
  }

  lemma CountersInvisible(a: Db, b: Db, q: Query)
    requires a.now == b.now && a.zsets == b.zsets && a.hashes == b.hashes
    ensures Summarize(a, q) == Summarize(b, q)
  {
    if q.userId.Some? {
      RetainedReadsHashes(a, b, Listed(a, q), q.platform);
    }
  }

  /** A submit that is turned away or limited leaves every dashboard as it was. */
  lemma RefusedSubmitInvisible(db: Db, table: L.RateTable, userId: Option<string>, tier: Option<string>,
                               s: S.Submission, freshId: string, q: Query)
    ensures var (out, r) := S.SubmitStep(db, table, userId, tier, s, freshId);
      !out.Accepted? ==> Summarize(r, q) == Summarize(db, q)
  {
    var (out, r) := S.SubmitStep(db, table, userId, tier, s, freshId);
    if !out.Accepted? {
      S.RejectsBeforeCounting(db, table, userId, tier, s, freshId);
      S.LimitedStoresNothing(db, table, userId, tier, s, freshId);
      CountersInvisible(r, db, q);
    }
  }

  /** An admitted submit adds one mention to each window of the user's that
      holds the current time. */
  lemma AcceptedSubmitMentioned(db: Db, table: L.RateTable, user: string, tier: Option<string>,
                                s: S.Submission, freshId: string, q: Query)
    requires S.Fresh(db, freshId)
    requires q.userId == Some(user)
    ensures var (out, r) := S.SubmitStep(db, table, Some(user), tier, s, freshId);
      out.Accepted? && Summarize(db, q).Report? && StartEpoch(q) <= db.now <= EndEpoch(db, q) ==>
        Summarize(r, q).Report? && Summarize(r, q).mentions == Summarize(db, q).mentions + 1
  {
    S.AcceptedIndexesOne(db, table, Some(user), tier, s, freshId);
    var (out, r) := S.SubmitStep(db, table, Some(user), tier, s, freshId);
    if out.Accepted? {
      IndexedIdMentioned(db, r, q, user, freshId);
    }
  }

  /** One new id in the user's index, scored inside the window, is one more mention. */
  lemma IndexedIdMentioned(db: Db, r: Db, q: Query, user: string, id: string)
    requires q.userId == Some(user) && r.now == db.now
    requires id !in ZSetAt(db, IndexKey(user))
    requires ZSetAt(r, IndexKey(user)) == ZSetAt(db, IndexKey(user))[id := db.now]
    ensures Summarize(db, q).Report? && StartEpoch(q) <= db.now <= EndEpoch(db, q) ==>
      Summarize(r, q).Report? && Summarize(r, q).mentions == Summarize(db, q).mentions + 1
  {
    if Summarize(db, q).Report? && StartEpoch(q) <= db.now <= EndEpoch(db, q) {
      RangeGrowsByOne(ZSetAt(db, IndexKey(user)), StartEpoch(q), EndEpoch(db, q), id, db.now);
      MentionsCountEveryListedId(db, q);
      MentionsCountEveryListedId(r, q);
    }
  }

  lemma ReportOf(db: Db, q: Query)
    requires q.userId.Some? && q.userId.value != "" && !q.startTime.Malformed? && !q.endTime.Malformed?
    requires StartEpoch(q) <= EndEpoch(db, q)
    ensures var recs := Retained(db, Listed(db, q), q.platform);
      Summarize(db, q) == Report(|Listed(db, q)|, C.Ranking(TagStream(recs)), Mean(SentimentSum(recs), |recs|))
  {
  }

  lemma TwoElements(s: seq<string>, x: string, y: string)
    requires x != y && multiset(s) == multiset{x, y}
    ensures s == [x, y] || s == [y, x]
  {
    assert |s| == |multiset(s)| == 2;
    assert s == [s[0], s[1]];
    assert s[0] in multiset(s) && s[1] in multiset(s);
    assert multiset{s[0], s[1]} == multiset{x, y};
  }

  /** A stream of two tags, one more frequent than the other, ranks the more frequent first. */
  lemma TwoTagRanking(stream: seq<string>, x: string, y: string)
    requires x != y && multiset(stream)[x] > multiset(stream)[y] > 0
    requires forall t :: t in stream ==> t == x || t == y
    ensures C.Ranking(stream) == [x, y]
  {
    var top := C.Ranking(stream);
    C.RankingFacts(stream);
    assert multiset(top) == multiset{x, y} by {
      forall t
        ensures multiset(top)[t] == multiset{x, y}[t]
      {
      }
    }
    TwoElements(top, x, y);
  }

  lemma TwoIdListing(db: Db, q: Query)
    requires db.now == 100 && db.zsets == map[IndexKey("u") := map["a" := 10, "b" := 20]]
    requires q == Query(Some("u"), None, Absent, Absent)
    ensures Listed(db, q) == ["a", "b"]
  {
    var z := map["a" := 10, "b" := 20];
    assert Precedes(z, "a", "b");
    assert IsRangeScan(z, 0, 100, ["a", "b"]);
    RangeScanIsRangeByScore(z, 0, 100, ["a", "b"]);
  }

  lemma OneRecordRetained(db: Db, rec: Record)
    requires db.hashes == map[RecordKey("a") := rec] && rec != NoFields
    ensures Retained(db, ["a", "b"], None) == [rec]
  {
    assert RecordKey("b")[11..] == "b" && RecordKey("a")[11..] == "a";
    assert ["a", "b"][..1] == ["a"];
    assert Retained(db, ["a"], None) == [rec];
  }

  lemma JoinedTagsReadBack(rec: Record, x: string, y: string)
    requires x != "" && ',' !in x && ',' !in y
    requires rec.hashtags == Some(Join([x, y, x], ','))
    ensures TagStream([rec]) == [x, y, x]
  {
    assert |Join([x, y, x], ',')| > 0;
    SplitJoin([x, y, x], ',');
    assert RecordTags(rec) == [x, y, x];
    assert [rec][..0] == [];
  }

  lemma RepeatedTagsRanked(rec: Record, x: string, y: string)
    requires x != y && x != "" && ',' !in x && ',' !in y
    requires rec.hashtags == Some(Join([x, y, x], ','))
    ensures C.Ranking(TagStream([rec])) == [x, y]
  {
    JoinedTagsReadBack(rec, x, y);
    assert multiset([x, y, x]) == multiset{x, x, y};
    TwoTagRanking([x, y, x], x, y);
  }

  /** A user with two indexed ids, one of whose records was never written: both
      ids are mentioned, but only the written record feeds the ranking and the mean. */
  lemma MissingRecordStillMentioned(db: Db, x: string, y: string)
    requires x != y && x != "" && ',' !in x && ',' !in y
    requires db.now == 100 && db.zsets == map[IndexKey("u") := map["a" := 10, "b" := 20]]
    requires db.hashes == map[RecordKey("a") := Record(Some("web"), None, None, Some(Join([x, y, x], ',')), Some(0.5))]
    ensures Summarize(db, Query(Some("u"), None, Absent, Absent)) == Report(2, [x, y], 0.5)
  {
    var rec := Record(Some("web"), None, None, Some(Join([x, y, x], ',')), Some(0.5));
    var q := Query(Some("u"), None, Absent, Absent);
    TwoIdListing(db, q);
    OneRecordRetained(db, rec);
    RepeatedTagsRanked(rec, x, y);
    assert SentimentSum([rec]) == 0.5;
    assert Mean(0.5, 1) == 0.5;
    ReportOf(db, q);
  }
}
