/** An in-memory, single-threaded model of the Redis commands the programs use:
    INCR, EXPIRE and TTL on counters; ZADD and ZRANGEBYSCORE on sorted sets;
    HMSET and HGETALL on hashes. Time is an explicit integer clock. */
module Redis {
  import opened Wrappers
  import opened SortedSet

  /** A key holding an integer, as INCR leaves it, with the instant it expires at, if any. */
  datatype CounterValue = CounterValue(count: int, expiry: Option<int>)

  /** A hash as the programs write it: one optional slot for each field name they use.
      The sentiment is kept as a number rather than as its decimal text. */
  datatype Record = Record(
    platform: Option<string>,
    content: Option<string>,
    timestamp: Option<string>,
    hashtags: Option<string>,
    sentiment: Option<real>)

  /** What HGETALL gives for a key holding no hash: no field at all (an empty dict). */
  const NoFields: Record := Record(None, None, None, None, None)

  /** The keyspace at one instant: counters, hashes and sorted sets, and the clock. */
  datatype Db = Db(
    now: int,
    counters: map<string, CounterValue>,
    hashes: map<string, Record>,
    zsets: map<string, ZSet>)

  /** A counter key exists: it was written and its expiry, if any, is still ahead.
      A key whose expiry is at or before `now` reads as absent. */
  predicate Live(db: Db, key: string)
  {
    key in db.counters && (db.counters[key].expiry.None? || db.now < db.counters[key].expiry.value)
  }

  /** The integer a counter key holds, 0 when it is absent. */
  function CountOf(db: Db, key: string): (n: int)
  {
    if Live(db, key) then db.counters[key].count else 0
  }

  /** INCR key: adds one to the counter; an absent key starts again at 1 with no
      expiry, a live key keeps the expiry it had. Nothing else changes. */
  function Incremented(db: Db, key: string): (r: Db)
    ensures Live(r, key) && CountOf(r, key) == CountOf(db, key) + 1
    ensures r.counters[key].expiry == if Live(db, key) then db.counters[key].expiry else None
    ensures r == db.(counters := db.counters[key := r.counters[key]])
  {
    var c := if Live(db, key) then db.counters[key].(count := db.counters[key].count + 1)
             else CounterValue(1, None);
    db.(counters := db.counters[key := c])
  }

  /** EXPIRE key seconds: a live key now expires `seconds` from now (at once if
      `seconds` is not positive); an absent key stays absent. */
  function WithExpiry(db: Db, key: string, seconds: int): (r: Db)
    ensures Live(db, key) && seconds > 0 ==> TimeToLive(r, key) == seconds && CountOf(r, key) == CountOf(db, key)
    ensures seconds <= 0 ==> !Live(r, key)
    ensures !Live(db, key) ==> r == db
    ensures r == db.(counters := r.counters)
    ensures forall k :: k != key ==> (k in r.counters <==> k in db.counters)
    ensures forall k :: k != key && k in r.counters ==> r.counters[k] == db.counters[k]
  {
    if Live(db, key) then
      db.(counters := db.counters[key := CounterValue(db.counters[key].count, Some(db.now + seconds))])
    else db
  }

  /** TTL key: -2 when the key is absent, -1 when it has no expiry, else the
      seconds left, which are then at least 1. */
  function TimeToLive(db: Db, key: string): (t: int)
    ensures t == -2 <==> !Live(db, key)
    ensures t == -1 <==> Live(db, key) && db.counters[key].expiry.None?
    ensures t > 0 <==> Live(db, key) && db.counters[key].expiry.Some?
    ensures t > 0 ==> Live(db, key) && db.counters[key].expiry == Some(db.now + t)
  {
    if !Live(db, key) then -2
    else match db.counters[key].expiry
      case None => -1
      case Some(e) => e - db.now
  }

  /** The sorted set stored at `key`, empty when there is none. */
  function ZSetAt(db: Db, key: string): ZSet
  {
    if key in db.zsets then db.zsets[key] else map[]
  }

  /** ZADD key {member: score}: adds the member or moves it to the new score. */
  function WithMember(db: Db, key: string, member: string, score: int): (r: Db)
    ensures member in ZSetAt(r, key) && ZSetAt(r, key)[member] == score
    ensures forall m :: m != member ==> (m in ZSetAt(r, key) <==> m in ZSetAt(db, key))
    ensures forall m :: m != member && m in ZSetAt(db, key) ==> ZSetAt(r, key)[m] == ZSetAt(db, key)[m]
    ensures r == db.(zsets := db.zsets[key := ZSetAt(r, key)])
  {
    db.(zsets := db.zsets[key := ZSetAt(db, key)[member := score]])
  }

  /** HGETALL key: the hash stored at `key`, or no field at all. */
  function HashAt(db: Db, key: string): Record
  {
    if key in db.hashes then db.hashes[key] else NoFields
  }

  function Pick<T>(update: Option<T>, current: Option<T>): Option<T>
  {
    if update.Some? then update else current
  }

  /** The fields of `update` written over `current`: HMSET sets the fields it is
      given and leaves the others as they were. */
  function Overlay(current: Record, update: Record): (r: Record)
    ensures update.platform.Some? ==> r.platform == update.platform
    ensures update.platform.None? ==> r.platform == current.platform
    ensures update.hashtags.Some? ==> r.hashtags == update.hashtags
    ensures update.hashtags.None? ==> r.hashtags == current.hashtags
    ensures update.sentiment.Some? ==> r.sentiment == update.sentiment
    ensures update.sentiment.None? ==> r.sentiment == current.sentiment
  {
    Record(
      Pick(update.platform, current.platform),
      Pick(update.content, current.content),
      Pick(update.timestamp, current.timestamp),
      Pick(update.hashtags, current.hashtags),
      Pick(update.sentiment, current.sentiment))
  }

  /** HMSET key fields. */
  function WithFields(db: Db, key: string, update: Record): (r: Db)
    ensures HashAt(r, key) == Overlay(HashAt(db, key), update)
    ensures r == db.(hashes := db.hashes[key := HashAt(r, key)])
  {
    db.(hashes := db.hashes[key := Overlay(HashAt(db, key), update)])
  }

  /** Writing the same fields twice leaves the hash as writing them once. */
  lemma OverlayIdempotent(current: Record, update: Record)
    ensures Overlay(Overlay(current, update), update) == Overlay(current, update)
  {
  }

  /** The store: a single Redis server holding the whole keyspace. */
  class Store {
    var now: int
    var counters: map<string, CounterValue>
    var hashes: map<string, Record>
    var zsets: map<string, ZSet>

    /** The keyspace as a value. */
    function Snapshot(): Db
      reads this
    {
      Db(now, counters, hashes, zsets)
    }

    /** An empty server whose clock reads `start`. */
    constructor (start: int)
      ensures Snapshot() == Db(start, map[], map[], map[])
    {
      now, counters, hashes, zsets := start, map[], map[], map[];
    }

    /** INCR: returns the new count. */
    method Incr(key: string) returns (n: int)
      modifies this
      ensures Snapshot() == Incremented(old(Snapshot()), key)
      ensures n == CountOf(Snapshot(), key) && n == CountOf(old(Snapshot()), key) + 1
    {
      var c := if Live(Snapshot(), key) then counters[key].(count := counters[key].count + 1)
               else CounterValue(1, None);
      counters := counters[key := c];
      n := c.count;
    }

    /** EXPIRE: returns whether the key existed. */
    method Expire(key: string, seconds: int) returns (existed: bool)
      modifies this
      ensures Snapshot() == WithExpiry(old(Snapshot()), key, seconds)
      ensures existed == Live(old(Snapshot()), key)
    {
      existed := Live(Snapshot(), key);
      if existed {
        counters := counters[key := CounterValue(counters[key].count, Some(now + seconds))];
      }
    }

    /** TTL. */
    method Ttl(key: string) returns (t: int)
      ensures t == TimeToLive(Snapshot(), key)
    {
      if !Live(Snapshot(), key) {
        t := -2;
      } else if counters[key].expiry.None? {
        t := -1;
      } else {
        t := counters[key].expiry.value - now;
      }
    }

    /** ZADD with a single member. */
    method ZAdd(key: string, member: string, score: int)
      modifies this
      ensures Snapshot() == WithMember(old(Snapshot()), key, member, score)
    {
      var z := if key in zsets then zsets[key] else map[];
      zsets := zsets[key := z[member := score]];
    }

    /** ZRANGEBYSCORE key lo hi: the members scored within [lo, hi], ascending. */
    method ZRangeByScore(key: string, lo: int, hi: int) returns (members: seq<string>)
      ensures IsRangeScan(ZSetAt(Snapshot(), key), lo, hi, members)
      ensures members == RangeByScore(ZSetAt(Snapshot(), key), lo, hi)
    {
      var z := if key in zsets then zsets[key] else map[];
      var pending := Within(z, lo, hi);
      members := [];
      while pending != {}
        invariant Ascending(z, members)
        invariant forall m :: m in members ==> InRange(z, lo, hi, m) && m !in pending
        invariant forall m :: m in pending ==> InRange(z, lo, hi, m)
        invariant forall m :: m in z && lo <= z[m] <= hi ==> m in members || m in pending
        decreases pending
      {
        var m :| m in pending;
        members := InsertByScore(z, members, m);
        pending := pending - {m};
      }
      RangeScanIsRangeByScore(z, lo, hi, members);
    }

    /** HMSET. */
    method HmSet(key: string, update: Record)
      modifies this
      ensures Snapshot() == WithFields(old(Snapshot()), key, update)
    {
      var current := if key in hashes then hashes[key] else NoFields;
      hashes := hashes[key := Overlay(current, update)];
    }

    /** HGETALL. */
    method HGetAll(key: string) returns (r: Record)
      ensures r == HashAt(Snapshot(), key)
    {
      r := if key in hashes then hashes[key] else NoFields;
    }
  }
}
