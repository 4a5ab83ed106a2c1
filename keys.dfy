/** The Redis key names the two programs build (app.py and background_tasks.py). */
module Keys {

  /** Counter for a user's requests in the current minute window. */
  function MinuteKey(user: string, tier: string): string
  {
    "rate_limit:" + user + ":" + tier + ":minute"
  }

  /** Counter for a user's requests in the current hour window. */
  function HourKey(user: string, tier: string): string
  {
    "rate_limit:" + user + ":" + tier + ":hour"
  }

  /** Sorted set of a user's submission ids, scored by epoch seconds. */
  function IndexKey(user: string): string
  {
    "user:" + user + ":submissions"
  }

  /** Hash holding one submission's fields. */
  function RecordKey(id: string): string
  {
    "submission:" + id
  }

  /** A minute counter and an hour counter never share a key, whatever the
      user and tier strings (the keys end in different letters). */
  lemma MinuteKeyIsNotHourKey(u: string, t: string, u': string, t': string)
    ensures MinuteKey(u, t) != HourKey(u', t')
  {
    var m, h := MinuteKey(u, t), HourKey(u', t');
    assert m[|m| - 1] == 'e' && h[|h| - 1] == 'r';
  }

  /** The character just before ":minute" is the tier's last character. */
  lemma MinuteKeyTierEnd(u: string, t: string)
    requires |t| > 0
    ensures var k := MinuteKey(u, t); |k| >= 8 && k[|k| - 8] == t[|t| - 1]
  {
    var k := MinuteKey(u, t);
    assert k == ("rate_limit:" + u + ":") + t + ":minute";
  }

  /** The character just before ":hour" is the tier's last character. */
  lemma HourKeyTierEnd(u: string, t: string)
    requires |t| > 0
    ensures var k := HourKey(u, t); |k| >= 6 && k[|k| - 6] == t[|t| - 1]
  {
    var k := HourKey(u, t);
    assert k == ("rate_limit:" + u + ":") + t + ":hour";
  }

  /** Two minute keys built from tiers of the same length are equal only when
      they were built from the same user and tier. */
  lemma SameLengthTierMinuteKeys(u1: string, t1: string, u2: string, t2: string)
    requires |t1| == |t2| && MinuteKey(u1, t1) == MinuteKey(u2, t2)
    ensures u1 == u2 && t1 == t2
  {
    var n := |u1|;
    assert MinuteKey(u1, t1)[11..11 + n] == u1;
    assert MinuteKey(u2, t2)[11..11 + n] == u2;
    assert MinuteKey(u1, t1)[12 + n..12 + n + |t1|] == t1;
    assert MinuteKey(u2, t2)[12 + n..12 + n + |t2|] == t2;
  }

  /** The same for hour keys. */
  lemma SameLengthTierHourKeys(u1: string, t1: string, u2: string, t2: string)
    requires |t1| == |t2| && HourKey(u1, t1) == HourKey(u2, t2)
    ensures u1 == u2 && t1 == t2
  {
    var n := |u1|;
    assert HourKey(u1, t1)[11..11 + n] == u1;
    assert HourKey(u2, t2)[11..11 + n] == u2;
    assert HourKey(u1, t1)[12 + n..12 + n + |t1|] == t1;
    assert HourKey(u2, t2)[12 + n..12 + n + |t2|] == t2;
  }

  lemma IndexKeyInjective(u: string, v: string)
    requires IndexKey(u) == IndexKey(v)
    ensures u == v
  {
    assert IndexKey(u)[5..5 + |u|] == u;
    assert IndexKey(v)[5..5 + |v|] == v;
  }

  lemma RecordKeyInjective(a: string, b: string)
    requires RecordKey(a) == RecordKey(b)
    ensures a == b
  {
    assert RecordKey(a)[11..] == a;
    assert RecordKey(b)[11..] == b;
  }

  /** Counters, indexes and records live under different prefixes, so no key
      of one kind is ever a key of another kind. */
  lemma KeyKindsDisjoint(u: string, t: string, v: string, id: string)
    ensures MinuteKey(u, t) != IndexKey(v) && HourKey(u, t) != IndexKey(v)
    ensures MinuteKey(u, t) != RecordKey(id) && HourKey(u, t) != RecordKey(id)
    ensures IndexKey(v) != RecordKey(id)
  {
    assert MinuteKey(u, t)[0] == 'r' && HourKey(u, t)[0] == 'r';
    assert IndexKey(v)[0] == 'u' && RecordKey(id)[0] == 's';
  }
}
