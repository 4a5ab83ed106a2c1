/** The tiered fixed-window rate limiter of app.py: two counters per user and
    tier, one for the current minute and one for the current hour. */
module Limiter {
  import opened Wrappers
  import opened Redis
  import opened Keys

  /** A tier's two admission thresholds. */
  datatype Limits = Limits(perMinute: int, perHour: int)

  /** The thresholds of the three tiers the program knows. */
  datatype RateTable = RateTable(free: Limits, standard: Limits, premium: Limits)

  /** The thresholds in force when no environment variable overrides them. */
  const Defaults: RateTable := RateTable(Limits(10, 100), Limits(50, 500), Limits(200, 2000))

  /** Window lengths, in seconds. */
  const MinuteWindow: int := 60
  const HourWindow: int := 3600

  predicate IsTier(tier: string)
  {
    tier == "free" || tier == "standard" || tier == "premium"
  }

  /** Looking a tier up in the table: None for a tier it does not hold. */
  function Configured(table: RateTable, tier: string): (r: Option<Limits>)
    ensures r.Some? <==> IsTier(tier)
  {
    if tier == "free" then Some(table.free)
    else if tier == "standard" then Some(table.standard)
    else if tier == "premium" then Some(table.premium)
    else None
  }

  /** The thresholds the limiter applies: the tier's own, or the free tier's
      for a tier the table does not hold. */
  function LimitsFor(table: RateTable, tier: string): (l: Limits)
    ensures IsTier(tier) ==> Configured(table, tier) == Some(l)
    ensures !IsTier(tier) ==> l == table.free
  {
    Configured(table, tier).GetOr(table.free)
  }

  /** The limiter's answer: `(False, None)` or `(True, retry_in_seconds)`. */
  datatype Verdict = Allowed | Limited(retryAfter: int)

  /** One call of the limiter on a snapshot of the store: the verdict and the
      store afterwards, in the order the program issues its commands. */
  function RateCheck(db: Db, table: RateTable, user: string, tier: string): (result: (Verdict, Db))
  {
    var minuteKey, hourKey := MinuteKey(user, tier), HourKey(user, tier);
    var db1 := Incremented(db, minuteKey);
    var minuteCount := CountOf(db1, minuteKey);
    var db2 := Incremented(db1, hourKey);
    var hourCount := CountOf(db2, hourKey);
    var db3 := if minuteCount == 1 then WithExpiry(db2, minuteKey, MinuteWindow) else db2;
    var db4 := if hourCount == 1 then WithExpiry(db3, hourKey, HourWindow) else db3;
    var limits := LimitsFor(table, tier);
    if minuteCount > limits.perMinute || hourCount > limits.perHour then
      (Limited(TimeToLive(db4, minuteKey)), db4)
    else
      (Allowed, db4)
  }

  /** is_rate_limited: counts the attempt in both windows, arms a window's
      expiry when its count has just become 1, and answers. */
  method IsRateLimited(store: Store, table: RateTable, user: string, tier: string) returns (v: Verdict)
    modifies store
    ensures (v, store.Snapshot()) == RateCheck(old(store.Snapshot()), table, user, tier)
  {
    var limits := LimitsFor(table, tier);
    var minuteKey := MinuteKey(user, tier);
    var hourKey := HourKey(user, tier);
    var minuteCount := store.Incr(minuteKey);
    var hourCount := store.Incr(hourKey);
    if minuteCount == 1 {
      var _ := store.Expire(minuteKey, MinuteWindow);
    }
    if hourCount == 1 {
      var _ := store.Expire(hourKey, HourWindow);
    }
    if minuteCount > limits.perMinute || hourCount > limits.perHour {
      var retry := store.Ttl(minuteKey);
      v := Limited(retry);
    } else {
      v := Allowed;
    }
  }

  /** A call is limited exactly when the count after it, in either window,
      exceeds that window's threshold; the retry time is the minute counter's
      remaining time to live, never the hour counter's. */
  lemma {:induction false} LimitedIff(db: Db, table: RateTable, user: string, tier: string)
    ensures var (v, r) := RateCheck(db, table, user, tier);
      var limits := LimitsFor(table, tier);
      && (v.Limited? <==>
           CountOf(db, MinuteKey(user, tier)) + 1 > limits.perMinute
           || CountOf(db, HourKey(user, tier)) + 1 > limits.perHour)
      && (v.Limited? ==> v.retryAfter == TimeToLive(r, MinuteKey(user, tier)))
  {
    MinuteKeyIsNotHourKey(user, tier, user, tier);
  }

  /** Every call, limited or not, adds exactly one to both of its counters and
      touches no other key, no hash, no sorted set and not the clock. */
  lemma {:induction false} CountsEveryAttempt(db: Db, table: RateTable, user: string, tier: string)
    ensures var r := RateCheck(db, table, user, tier).1;
      var minuteKey, hourKey := MinuteKey(user, tier), HourKey(user, tier);
      && CountOf(r, minuteKey) == CountOf(db, minuteKey) + 1
      && CountOf(r, hourKey) == CountOf(db, hourKey) + 1
      && (forall k :: k != minuteKey && k != hourKey ==>
            (k in r.counters <==> k in db.counters) && (k in r.counters ==> r.counters[k] == db.counters[k]))
      && r.now == db.now && r.hashes == db.hashes && r.zsets == db.zsets
  {
    MinuteKeyIsNotHourKey(user, tier, user, tier);
  }

  /** The limiter touches counters only: the clock, the hashes and the sorted sets stay as they were. */
  lemma TouchesOnlyCounters(db: Db, table: RateTable, user: string, tier: string)
    ensures var r := RateCheck(db, table, user, tier).1;
      r.now == db.now && r.hashes == db.hashes && r.zsets == db.zsets
  {
  }

  /** A window's expiry is set, to a full window from now, exactly when its
      count has just become 1; otherwise the expiry it had is kept. */
  lemma {:induction false} ArmsOnlyFreshWindows(db: Db, table: RateTable, user: string, tier: string)
    ensures var r := RateCheck(db, table, user, tier).1;
      var minuteKey, hourKey := MinuteKey(user, tier), HourKey(user, tier);
      && Live(r, minuteKey) && Live(r, hourKey)
      && (CountOf(db, minuteKey) == 0 ==> r.counters[minuteKey].expiry == Some(db.now + MinuteWindow))
      && (CountOf(db, minuteKey) != 0 ==>
            Live(db, minuteKey) && r.counters[minuteKey].expiry == db.counters[minuteKey].expiry)
      && (CountOf(db, hourKey) == 0 ==> r.counters[hourKey].expiry == Some(db.now + HourWindow))
      && (CountOf(db, hourKey) != 0 ==>
            Live(db, hourKey) && r.counters[hourKey].expiry == db.counters[hourKey].expiry)
  {
    MinuteKeyIsNotHourKey(user, tier, user, tier);
  }

  /** A live key of `window` seconds expires no later than one window from now. */
  predicate ExpiresWithin(db: Db, key: string, window: int)
    requires key in db.counters
  {
    db.counters[key].expiry.Some? && db.counters[key].expiry.value <= db.now + window
  }

  /** The state the sequential limiter keeps: every live minute counter expires
      within a minute and every live hour counter within an hour. */
  ghost predicate Armed(db: Db)
  {
    && (forall u, t :: Live(db, MinuteKey(u, t)) ==> ExpiresWithin(db, MinuteKey(u, t), MinuteWindow))
    && (forall u, t :: Live(db, HourKey(u, t)) ==> ExpiresWithin(db, HourKey(u, t), HourWindow))
  }

  /** A call of the limiter keeps every window armed. */
  lemma {:induction false} RateCheckKeepsArmed(db: Db, table: RateTable, user: string, tier: string)
    requires Armed(db)
    ensures Armed(RateCheck(db, table, user, tier).1)
  {
    var r := RateCheck(db, table, user, tier).1;
    var minuteKey, hourKey := MinuteKey(user, tier), HourKey(user, tier);
    CountsEveryAttempt(db, table, user, tier);
    ArmsOnlyFreshWindows(db, table, user, tier);
    forall u, t | Live(r, MinuteKey(u, t))
      ensures ExpiresWithin(r, MinuteKey(u, t), MinuteWindow)
    {
      MinuteKeyIsNotHourKey(u, t, user, tier);
      if MinuteKey(u, t) != minuteKey {
        assert Live(db, MinuteKey(u, t));
      }
    }
    forall u, t | Live(r, HourKey(u, t))
      ensures ExpiresWithin(r, HourKey(u, t), HourWindow)
    {
      MinuteKeyIsNotHourKey(user, tier, u, t);
      if HourKey(u, t) != hourKey {
        assert Live(db, HourKey(u, t));
      }
    }
  }

  /** A server that has not stored anything yet is armed. */
  lemma EmptyStoreArmed(t: int)
    ensures Armed(Db(t, map[], map[], map[]))
  {
  }

  /** Whether windows are armed depends only on the clock and the counters:
      writes to hashes and sorted sets keep it. */
  lemma ArmedReadsCounters(a: Db, b: Db)
    requires a.now == b.now && a.counters == b.counters
    ensures Armed(a) <==> Armed(b)
  {
  }

  /** Letting time pass keeps every window armed. */
  lemma ClockKeepsArmed(db: Db, t: int)
    requires Armed(db) && db.now <= t
    ensures Armed(db.(now := t))
  {
  }

  /** In a store whose windows are armed, a limited call is told to retry
      within 1 to 60 seconds. */
  lemma {:induction false} RetryWithinMinute(db: Db, table: RateTable, user: string, tier: string)
    requires Armed(db)
    ensures var v := RateCheck(db, table, user, tier).0;
      v.Limited? ==> 1 <= v.retryAfter <= MinuteWindow
  {
    var (v, r) := RateCheck(db, table, user, tier);
    LimitedIff(db, table, user, tier);
    RateCheckKeepsArmed(db, table, user, tier);
    ArmsOnlyFreshWindows(db, table, user, tier);
    assert Live(r, MinuteKey(user, tier));
  }

  /** A minute after any instant, every minute window armed then has expired. */
  lemma MinuteWindowsLapse(db: Db, t: int, user: string, tier: string)
    requires Armed(db) && db.now + MinuteWindow <= t
    ensures !Live(db.(now := t), MinuteKey(user, tier))
  {
    assert Live(db.(now := t), MinuteKey(user, tier)) ==> Live(db, MinuteKey(user, tier));
  }

  /** Once the minute window has lapsed, a call is admitted again however many
      calls the previous window counted, as long as the hour allows it. */
  lemma {:induction false} LapsedWindowAdmits(db: Db, table: RateTable, user: string, tier: string)
    requires !Live(db, MinuteKey(user, tier))
    requires LimitsFor(table, tier).perMinute >= 1
    requires CountOf(db, HourKey(user, tier)) < LimitsFor(table, tier).perHour
    ensures RateCheck(db, table, user, tier).0 == Allowed
  {
    LimitedIff(db, table, user, tier);
  }

  /** `n` calls of the limiter one after the other, at one instant. */
  function Burst(db: Db, table: RateTable, user: string, tier: string, n: nat): (result: (seq<Verdict>, Db))
  {
    if n == 0 then ([], db)
    else
      var (vs, d) := Burst(db, table, user, tier, n - 1);
      var (v, d') := RateCheck(d, table, user, tier);
      (vs + [v], d')
  }

  /** Starting from fresh windows, after `n` calls both counters read `n`, the
      clock has not moved and the minute window expires a minute after the first. */
  lemma {:induction false} BurstCounts(db: Db, table: RateTable, user: string, tier: string, n: nat)
    requires CountOf(db, MinuteKey(user, tier)) == 0 && CountOf(db, HourKey(user, tier)) == 0
    ensures var (vs, d) := Burst(db, table, user, tier, n);
      && |vs| == n && d.now == db.now
      && CountOf(d, MinuteKey(user, tier)) == n && CountOf(d, HourKey(user, tier)) == n
      && (n > 0 ==> d.counters[MinuteKey(user, tier)].expiry == Some(db.now + MinuteWindow))
  {
    if n > 0 {
      var (vs, d) := Burst(db, table, user, tier, n - 1);
      var (v, d') := RateCheck(d, table, user, tier);
      assert Burst(db, table, user, tier, n) == (vs + [v], d');
      BurstCounts(db, table, user, tier, n - 1);
      CountsEveryAttempt(d, table, user, tier);
      ArmsOnlyFreshWindows(d, table, user, tier);
    }
  }

  /** From fresh windows, the first `n` calls at one instant are all admitted
      when `n` is within both thresholds. */
  lemma {:induction false} BurstAdmitted(db: Db, table: RateTable, user: string, tier: string, n: nat)
    requires CountOf(db, MinuteKey(user, tier)) == 0 && CountOf(db, HourKey(user, tier)) == 0
    requires n <= LimitsFor(table, tier).perMinute && n <= LimitsFor(table, tier).perHour
    ensures forall v :: v in Burst(db, table, user, tier, n).0 ==> v == Allowed
  {
    if n > 0 {
      var d := Burst(db, table, user, tier, n - 1).1;
      BurstAdmitted(db, table, user, tier, n - 1);
      BurstCounts(db, table, user, tier, n - 1);
      LimitedIff(d, table, user, tier);
    }
  }

  /** For a tier allowing N calls a minute (and at least N an hour), the N calls
      of a fresh minute are admitted and call N+1 of the same minute is limited
      with a full minute to wait. */
  lemma {:induction false} CallAfterThresholdIsLimited(db: Db, table: RateTable, user: string, tier: string)
    requires CountOf(db, MinuteKey(user, tier)) == 0 && CountOf(db, HourKey(user, tier)) == 0
    requires 0 <= LimitsFor(table, tier).perMinute <= LimitsFor(table, tier).perHour
    ensures var n := LimitsFor(table, tier).perMinute;
      var (vs, d) := Burst(db, table, user, tier, n);
      && (forall v :: v in vs ==> v == Allowed)
      && RateCheck(d, table, user, tier).0 == Limited(MinuteWindow)
  {
    var n := LimitsFor(table, tier).perMinute;
    var d := Burst(db, table, user, tier, n).1;
    BurstAdmitted(db, table, user, tier, n);
    BurstCounts(db, table, user, tier, n);
    LimitedIff(d, table, user, tier);
    if n == 0 {
      ArmsOnlyFreshWindows(d, table, user, tier);
    } else {
      CountsEveryAttempt(d, table, user, tier);
      ArmsOnlyFreshWindows(d, table, user, tier);
    }
  }

  /** With the default thresholds, a free-tier user's 11th call within one
      minute is limited and told to retry in 60 seconds. */
  lemma FreeTierEleventhCall(db: Db, user: string)
    requires CountOf(db, MinuteKey(user, "free")) == 0 && CountOf(db, HourKey(user, "free")) == 0
    ensures var (vs, d) := Burst(db, Defaults, user, "free", 10);
      && |vs| == 10 && (forall v :: v in vs ==> v == Allowed)
      && RateCheck(d, Defaults, user, "free").0 == Limited(60)
  {
    CallAfterThresholdIsLimited(db, Defaults, user, "free");
    BurstCounts(db, Defaults, user, "free", 10);
  }

  /** A tier the table does not hold is judged by the free tier's thresholds. */
  lemma UnknownTierUsesFreeLimits(db: Db, table: RateTable, user: string, tier: string)
    requires !IsTier(tier)
    ensures RateCheck(db, table, user, tier).0.Limited? <==>
      CountOf(db, MinuteKey(user, tier)) + 1 > table.free.perMinute
      || CountOf(db, HourKey(user, tier)) + 1 > table.free.perHour
  {
    LimitedIff(db, table, user, tier);
  }

  /** Users of the configured tiers never share a counter: distinct (user, tier)
      pairs give distinct minute keys and distinct hour keys. */
  lemma ConfiguredTierKeysDistinct(u1: string, t1: string, u2: string, t2: string)
    requires IsTier(t1) && IsTier(t2) && (u1 != u2 || t1 != t2)
    ensures MinuteKey(u1, t1) != MinuteKey(u2, t2)
    ensures HourKey(u1, t1) != HourKey(u2, t2)
  {
    MinuteKeyTierEnd(u1, t1);
    MinuteKeyTierEnd(u2, t2);
    HourKeyTierEnd(u1, t1);
    HourKeyTierEnd(u2, t2);
    if t1 == t2 {
      if MinuteKey(u1, t1) == MinuteKey(u2, t2) {
        SameLengthTierMinuteKeys(u1, t1, u2, t2);
      }
      if HourKey(u1, t1) == HourKey(u2, t2) {
        SameLengthTierHourKeys(u1, t1, u2, t2);
      }
    }
  }

  /** With a raw tier the table does not hold, two different (user, tier) pairs
      can count in the same window: ("a", "b:free") and ("a:b", "free") share
      their counters. */
  lemma {:induction false} RawTierSharesCounter(db: Db, table: RateTable)
    ensures MinuteKey("a", "b:free") == MinuteKey("a:b", "free")
    ensures CountOf(RateCheck(db, table, "a", "b:free").1, MinuteKey("a:b", "free"))
      == CountOf(db, MinuteKey("a:b", "free")) + 1
  {
    assert MinuteKey("a", "b:free") == MinuteKey("a:b", "free");
    CountsEveryAttempt(db, table, "a", "b:free");
  }
}
