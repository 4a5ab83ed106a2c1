/** The ingestion handler of app.py (POST /api/v1/analytics/submit): validate
    the headers, consult the limiter, then index and store the submission. */
module Submit {
  import opened Wrappers
  import opened Redis
  import opened Keys
  import opened Limiter

  /** The fields of the JSON body the handler reads. The client's `content`
      and `timestamp` are read and never stored. */
  datatype Submission = Submission(
    platform: string,
    content: Option<string>,
    timestamp: Option<int>,
    hashtags: Option<string>,
    sentiment: Option<real>)

  /** The handler's answer: a 400 for a missing user id or a missing or unknown
      tier, a 429 with a retry time, or a 200 with the new id. */
  datatype SubmitOutcome = MissingUserId | InvalidTier | RateLimited(retryAfter: int) | Accepted(submissionId: string)

  /** The hash the handler writes: the platform, the hashtags (default "") and
      the sentiment score (default 0.0). */
  function PlaceholderRecord(s: Submission): Record
  {
    Record(Some(s.platform), None, None, Some(s.hashtags.GetOr("")), Some(s.sentiment.GetOr(0.0)))
  }

  /** `id` has never been used: no hash and no index holds it (what uuid4 is trusted to give). */
  predicate Fresh(db: Db, id: string)
  {
    RecordKey(id) !in db.hashes && forall k :: k in db.zsets ==> id !in db.zsets[k]
  }

  /** The writes of an admitted submit: index `id` under the current time,
      then write its record. */
  function Admit(db: Db, user: string, s: Submission, id: string): (r: Db)
  {
    var indexed := WithMember(db, IndexKey(user), id, db.now);
    WithFields(indexed, RecordKey(id), PlaceholderRecord(s))
  }

  /** With a fresh id, the writes add exactly that id to the user's index and
      exactly its record, and touch nothing else. */
  lemma AdmitAddsOne(db: Db, user: string, s: Submission, id: string)
    requires Fresh(db, id)
    ensures var r := Admit(db, user, s, id);
      var index := IndexKey(user);
      && id !in ZSetAt(db, index)
      && ZSetAt(r, index) == ZSetAt(db, index)[id := db.now]
      && (forall k :: k != index ==> ZSetAt(r, k) == ZSetAt(db, k))
      && HashAt(r, RecordKey(id)) == PlaceholderRecord(s)
      && (forall k :: k != RecordKey(id) ==> HashAt(r, k) == HashAt(db, k))
      && r.now == db.now && r.counters == db.counters
  {
    var index := IndexKey(user);
    var indexed := WithMember(db, index, id, db.now);
    assert HashAt(indexed, RecordKey(id)) == NoFields;
  }

  /** One submit on a snapshot of the store: the answer and the store afterwards. */
  function SubmitStep(db: Db, table: RateTable, userId: Option<string>, tier: Option<string>,
                      s: Submission, freshId: string): (result: (SubmitOutcome, Db))
  {
    if userId.None? || userId.value == "" then (MissingUserId, db)
    else if tier.None? || tier.value == "" || Configured(table, tier.value).None? then (InvalidTier, db)
    else
      var (verdict, db1) := RateCheck(db, table, userId.value, tier.value);
      if verdict.Limited? then (RateLimited(verdict.retryAfter), db1)
      else (Accepted(freshId), Admit(db1, userId.value, s, freshId))
  }

  /** submit_data, with the X-User-ID and X-User-Tier headers as `userId` and
      `tier` and the generated uuid as `freshId`. */
  method SubmitData(store: Store, table: RateTable, userId: Option<string>, tier: Option<string>,
                    s: Submission, freshId: string) returns (out: SubmitOutcome)
    requires Fresh(store.Snapshot(), freshId)
    modifies store
    ensures (out, store.Snapshot()) == SubmitStep(old(store.Snapshot()), table, userId, tier, s, freshId)
  {
    if userId.None? || userId.value == "" {
      return MissingUserId;
    }
    if tier.None? || tier.value == "" || Configured(table, tier.value).None? {
      return InvalidTier;
    }
    var user := userId.value;
    var verdict := IsRateLimited(store, table, user, tier.value);
    if verdict.Limited? {
      return RateLimited(verdict.retryAfter);
    }
    var submissionId := freshId;
    var timestamp := store.now;
    store.ZAdd(IndexKey(user), submissionId, timestamp);
    store.HmSet(RecordKey(submissionId), PlaceholderRecord(s));
    out := Accepted(submissionId);
  }

  /** A request without a user id, or with a tier the table does not hold, is
      turned away before any counter is touched: the store is left as it was. */
  lemma RejectsBeforeCounting(db: Db, table: RateTable, userId: Option<string>, tier: Option<string>,
                              s: Submission, freshId: string)
    ensures var (out, r) := SubmitStep(db, table, userId, tier, s, freshId);
      && (out == MissingUserId <==> userId.None? || userId.value == "")
      && (out == InvalidTier <==> userId.Some? && userId.value != "" && (tier.None? || !IsTier(tier.value)))
      && (out == MissingUserId || out == InvalidTier ==> r == db)
  {
  }

  /** A valid request is admitted exactly when neither of its counters, once
      counted, exceeds its tier's threshold. */
  lemma {:induction false} AcceptedIff(db: Db, table: RateTable, user: string, tier: string,
                                       s: Submission, freshId: string)
    requires user != "" && IsTier(tier)
    ensures var out := SubmitStep(db, table, Some(user), Some(tier), s, freshId).0;
      var limits := LimitsFor(table, tier);
      && (out.Accepted? || out.RateLimited?)
      && (out.Accepted? <==>
            CountOf(db, MinuteKey(user, tier)) + 1 <= limits.perMinute
            && CountOf(db, HourKey(user, tier)) + 1 <= limits.perHour)
  {
    LimitedIff(db, table, user, tier);
  }

  /** A limited request adds nothing to any index and writes no hash; its
      attempt is still counted in both windows. */
  lemma {:induction false} LimitedStoresNothing(db: Db, table: RateTable, userId: Option<string>, tier: Option<string>,
                                                s: Submission, freshId: string)
    ensures var (out, r) := SubmitStep(db, table, userId, tier, s, freshId);
      out.RateLimited? ==>
        && r.zsets == db.zsets && r.hashes == db.hashes && r.now == db.now
        && CountOf(r, MinuteKey(userId.value, tier.value)) == CountOf(db, MinuteKey(userId.value, tier.value)) + 1
        && CountOf(r, HourKey(userId.value, tier.value)) == CountOf(db, HourKey(userId.value, tier.value)) + 1
  {
    if userId.Some? && tier.Some? {
      CountsEveryAttempt(db, table, userId.value, tier.value);
    }
  }

  /** An admitted request with a fresh id adds exactly that id to the user's
      index, scored with the current time (the client's timestamp plays no
      part); no other index changes, nor the clock. */
  lemma {:induction false} AcceptedIndexesOne(db: Db, table: RateTable, userId: Option<string>, tier: Option<string>,
                                              s: Submission, freshId: string)
    requires Fresh(db, freshId)
    ensures var (out, r) := SubmitStep(db, table, userId, tier, s, freshId);
      out.Accepted? ==>
        var index := IndexKey(userId.value);
        && out.submissionId == freshId
        && freshId !in ZSetAt(db, index)
        && ZSetAt(r, index) == ZSetAt(db, index)[freshId := db.now]
        && (forall k :: k != index ==> ZSetAt(r, k) == ZSetAt(db, k))
        && r.now == db.now
  {
    if userId.Some? && userId.value != "" && tier.Some? && tier.value != "" && Configured(table, tier.value).Some? {
      TouchesOnlyCounters(db, table, userId.value, tier.value);
      AdmitAddsOne(RateCheck(db, table, userId.value, tier.value).1, userId.value, s, freshId);
    }
  }

  /** An admitted request with a fresh id stores the platform, hashtags and
      sentiment under that id; no other hash changes. */
  lemma {:induction false} AcceptedStoresRecord(db: Db, table: RateTable, userId: Option<string>, tier: Option<string>,
                                                s: Submission, freshId: string)
    requires Fresh(db, freshId)
    ensures var (out, r) := SubmitStep(db, table, userId, tier, s, freshId);
      out.Accepted? ==>
        && HashAt(r, RecordKey(freshId)) == PlaceholderRecord(s)
        && (forall k :: k != RecordKey(freshId) ==> HashAt(r, k) == HashAt(db, k))
  {
    if userId.Some? && userId.value != "" && tier.Some? && tier.value != "" && Configured(table, tier.value).Some? {
      TouchesOnlyCounters(db, table, userId.value, tier.value);
      AdmitAddsOne(RateCheck(db, table, userId.value, tier.value).1, userId.value, s, freshId);
    }
  }

  /** The stored record reads back as what was submitted, with the defaults
      filled in. */
  lemma {:induction false} SubmitThenRead(db: Db, table: RateTable, user: string, tier: string,
                                          s: Submission, freshId: string)
    requires Fresh(db, freshId)
    ensures var (out, r) := SubmitStep(db, table, Some(user), Some(tier), s, freshId);
      out.Accepted? ==>
        var rec := HashAt(r, RecordKey(freshId));
        && rec.platform == Some(s.platform)
        && rec.hashtags == Some(if s.hashtags.Some? then s.hashtags.value else "")
        && rec.sentiment == Some(if s.sentiment.Some? then s.sentiment.value else 0.0)
  {
    AcceptedStoresRecord(db, table, Some(user), Some(tier), s, freshId);
  }

  /** Every submit keeps the limiter's windows armed, whatever its outcome. */
  lemma {:induction false} SubmitKeepsArmed(db: Db, table: RateTable, userId: Option<string>, tier: Option<string>,
                                            s: Submission, freshId: string)
    requires Armed(db)
    ensures Armed(SubmitStep(db, table, userId, tier, s, freshId).1)
  {
    if userId.Some? && userId.value != "" && tier.Some? && tier.value != "" && Configured(table, tier.value).Some? {
      var db1 := RateCheck(db, table, userId.value, tier.value).1;
      RateCheckKeepsArmed(db, table, userId.value, tier.value);
      ArmedReadsCounters(db1, Admit(db1, userId.value, s, freshId));
    }
  }

  /** The content and timestamp the client sends play no part: two requests
      differing only in them have the same effect. */
  lemma ClientTimestampIgnored(db: Db, table: RateTable, userId: Option<string>, tier: Option<string>,
                               s: Submission, content: Option<string>, timestamp: Option<int>, freshId: string)
    ensures SubmitStep(db, table, userId, tier, s, freshId)
      == SubmitStep(db, table, userId, tier, s.(content := content, timestamp := timestamp), freshId)
  {
  }
}
