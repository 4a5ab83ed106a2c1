# Tiered rate limiter and analytics dashboard, in Dafny

A model of the core of a small Flask service that takes social-media
"mention" submissions from users and answers analytics queries over them,
with Redis as its only state.

- **Rate limiter** (`limiter.dfy`). `is_rate_limited` keeps two fixed-window
  counters per user and tier, `rate_limit:<user>:<tier>:minute` and
  `...:hour`. Every call INCRs both. A window's EXPIRE is armed only when its
  count has just become 1. The call is limited when either count exceeds its
  tier's threshold, and the retry time is the minute counter's TTL.
- **Submit** (`submit.dfy`). `submit_data` refuses a missing user id, then a
  missing or unknown tier, and only then consults the limiter. An admitted
  submission's fresh id goes into the sorted set `user:<user>:submissions`,
  scored with the server's clock. A placeholder hash goes to
  `submission:<id>`, holding the platform, the hashtags (default `""`) and
  the sentiment score (default `0.0`).
- **Dashboard** (`dashboard.dfy`). `get_dashboard` checks the user id, the
  time format and the range. It lists the user's ids in the window with
  ZRANGEBYSCORE, skips ids with no hash or, under a platform filter, a hash
  from another platform, and reports three things:
  - the number of listed ids;
  - the tags ranked by `Counter.most_common()`;
  - the mean sentiment of the retained records.
- **Analysis worker** (`background_tasks.dfy`). `extract_hashtags` is
  `re.findall(r"#(\w+)", content)`. `process_submission` overwrites the
  whole record hash and re-scores the id in the user's index.

Supporting modules model what the handlers rely on:

| file | module | models |
|---|---|---|
| `redis.dfy` | `Redis` | one Redis server as a class `Store`; each command is a method whose new state is a pure function of the old one (`Db`) |
| `sortedset.dfy` | `SortedSet` | sorted sets and the order ZRANGEBYSCORE lists them in: by score, then by member |
| `keys.dfy` | `Keys` | the key names |
| `collections.dfy` | `Collections` | Python's `Counter`: `update` keeps keys in first-insertion order; `most_common` is a stable sort by descending count |
| `strings.dfy` | `Strings` | `str.split` and `str.join` with a one-character separator, and Redis's lexicographic member order |
| `wrappers.dfy` | `Wrappers` | `Option` |

The store is single-threaded. Time is the integer clock `Db.now`, and a
counter whose expiry is at or before `now` reads as absent.

Three behaviours of the code that a reader might not expect, all kept as
written:
- **mentions_count.** `mentions_count` is `len(submission_ids)`: every id
  listed in the window, including ids whose hash is missing or whose
  platform is filtered out (see `Dashboard.MentionsCountEveryListedId` and
  `Dashboard.MissingRecordStillMentioned`).
- **What the worker overwrites.** `process_submission` overwrites every
  field, platform and timestamp included. It also moves the id's score to
  the parsed client timestamp.
- **The job queue.** app.py creates a job queue at module level (app.py:20),
  but nothing in app.py enqueues `process_submission`. The two are modelled
  as separate operations on the same store.

## Model

| member | source | states |
|---|---|---|
| Limiter.IsRateLimited | app.py:39-60 | the verdict and new store are `RateCheck` of the old store: INCR both windows, arm the expiry of a window whose count became 1, compare against the tier's thresholds, TTL of the minute key as retry time |
| Limiter.LimitsFor | app.py:40 | a configured tier gets its own thresholds; any other tier string gets the free tier's |
| Limiter.Configured | app.py:23-36 | exactly the three tiers free, standard and premium are configured |
| Limiter.LimitedIff | app.py:47-59 | limited if and only if the minute count + 1 exceeds the minute threshold or the hour count + 1 exceeds the hour threshold; the retry time is the minute counter's remaining TTL |
| Limiter.CountsEveryAttempt | app.py:47-48 | every call, limited or not, adds one to both counters and changes no other counter, no hash, no sorted set and not the clock |
| Limiter.TouchesOnlyCounters | app.py:43-58 | the limiter leaves the clock, the hashes and the sorted sets unchanged |
| Limiter.ArmsOnlyFreshWindows | app.py:50-54 | after a call both counters are live; a window whose count was 0 now expires one full window (60 s / 3600 s) from now; otherwise its expiry is unchanged |
| Limiter.RateCheckKeepsArmed | app.py:50-54 | a call preserves the invariant that every live minute counter expires within 60 s and every hour counter within 3600 s |
| Limiter.EmptyStoreArmed | app.py:17 | a server that has stored nothing yet is armed |
| Limiter.ArmedReadsCounters | app.py:50-54 | being armed depends only on the clock and the counters |
| Submit.SubmitKeepsArmed | app.py:72-100 | every submit, whatever its outcome, keeps the windows armed |
| BackgroundTasks.ProcessKeepsArmed | background_tasks.py:27-41 | the worker's writes keep the windows armed |
| Limiter.ClockKeepsArmed | app.py:41 | time passing keeps every window armed |
| Limiter.RetryWithinMinute | app.py:57-59 | in an armed store, a limited call's retry time lies in [1, 60] |
| Limiter.MinuteWindowsLapse | app.py:51-52 | 60 s after any instant, every minute counter armed at that instant has expired |
| Limiter.LapsedWindowAdmits | app.py:47-60 | once the minute counter has lapsed, a call is admitted whatever was counted before, provided the hour allows it |
| Limiter.BurstCounts | app.py:47-54 | from fresh windows, n calls at one instant leave both counters at n and the minute window expiring 60 s after the first call |
| Limiter.BurstAdmitted | app.py:57-60 | from fresh windows, n calls with n within both thresholds are all admitted |
| Limiter.CallAfterThresholdIsLimited | app.py:57-59 | with a per-minute threshold N not above the hourly one, N calls of a fresh minute are admitted and call N+1 is limited with retry 60 |
| Limiter.FreeTierEleventhCall | app.py:24-27 | with the default thresholds, a free user's 10 calls in a minute are admitted and the 11th is limited with retry 60 |
| Limiter.UnknownTierUsesFreeLimits | app.py:40 | a tier not in the table is limited exactly by the free tier's thresholds |
| Limiter.ConfiguredTierKeysDistinct | app.py:43-44 | distinct (user, configured tier) pairs never share a minute or an hour counter |
| Limiter.RawTierSharesCounter | app.py:43 | with raw tier strings, ("a", "b:free") and ("a:b", "free") count in the same minute counter |
| Keys.MinuteKeyIsNotHourKey | app.py:43-44 | no minute key is an hour key |
| Keys.SameLengthTierMinuteKeys | app.py:43 | minute keys with equal-length tiers are equal only for equal user and tier |
| Keys.SameLengthTierHourKeys | app.py:44 | the same for hour keys |
| Keys.IndexKeyInjective | app.py:90 | different users have different submission indexes |
| Keys.RecordKeyInjective | app.py:96 | different ids have different record hashes |
| Keys.KeyKindsDisjoint | app.py:43-44 | counter, index and record keys never coincide |
| Submit.SubmitData | app.py:62-103 | the outcome and new store are `SubmitStep` of the old store: 400 on missing user id, then 400 on a missing or unknown tier, then the limiter, then ZADD of the fresh id at the server clock and HMSET of the placeholder |
| Submit.RejectsBeforeCounting | app.py:72-76 | MissingUserId if and only if the user id is absent or empty; InvalidTier if and only if a user is given and the tier is absent or unconfigured; both leave the store unchanged |
| Submit.AcceptedIff | app.py:79-83 | a valid request is either limited or admitted, and admitted exactly when both counts + 1 are within the tier's thresholds |
| Submit.LimitedStoresNothing | app.py:80-83 | a limited request writes no index and no hash but is counted in both windows |
| Submit.AdmitAddsOne | app.py:90-100 | with a fresh id the writes add exactly that id (scored now) to the user's index and exactly its placeholder hash; nothing else changes |
| Submit.AcceptedIndexesOne | app.py:86-93 | an admitted request returns the fresh id, which was not in the user's index and now is, scored with the server clock; no other index changes |
| Submit.AcceptedStoresRecord | app.py:95-100 | an admitted request stores the placeholder record under the fresh id; no other hash changes |
| Submit.SubmitThenRead | app.py:96-100 | the stored record reads back with the submitted platform, hashtags or "" and sentiment or 0.0 |
| Submit.ClientTimestampIgnored | app.py:87 | the client's timestamp and content do not affect the outcome or the store |
| Dashboard.GetDashboard | app.py:106-171 | the answer is `Summarize` of the store: the three refusals in order, else the number of listed ids, the ranked tags and the mean sentiment of the retained records (those with a hash and, under a filter, the asked platform) |
| Dashboard.Aggregate | app.py:139-159 | the loop leaves the counter equal to the tally of the retained records' tags, and the total and count equal to their sentiment sum and number |
| Dashboard.Visit | app.py:140-159 | one id is skipped when its hash is missing or its platform differs under a filter; otherwise its tags are counted and its score added |
| Dashboard.ErrorsIff | app.py:115-126 | each refusal happens exactly when its check fails and the earlier ones pass |
| Dashboard.MentionsCountEveryListedId | app.py:132-134 | mentions is the number of the user's ids scored within [start, end], and at least the number of retained records |
| Dashboard.TopHashtagsFacts | app.py:151-162 | the top hashtags hold every tag of a retained record exactly once and nothing else; counts never increase; equal counts follow first occurrence along the scan |
| Dashboard.RankedTagsMembers | app.py:152-154 | a tag is ranked if and only if some retained record holds it |
| Dashboard.TagStreamMembers | app.py:152-154 | a tag is in the counted stream if and only if some retained record holds it |
| Dashboard.EmptyHashtagsAddNothing | app.py:152-154 | a record with empty or absent hashtags adds no tag |
| Dashboard.SentimentIsMean | app.py:156-165 | the score is the sum over retained records divided by their number, 0.0 when there are none, and lies in [-1, 1] when every score does |
| Dashboard.MeanFacts | app.py:165 | mean × n is the total when n > 0; totals in [-n, n] give a mean in [-1, 1] |
| Dashboard.SentimentSumBounds | app.py:157-158 | the sum of n scores in [-1, 1] lies in [-n, n] |
| Dashboard.PlatformFilterNarrows | app.py:148-149 | an empty platform filters nothing; a non-empty one keeps, in order, exactly the unfiltered records on that platform |
| Dashboard.RetainedReadsHashes | app.py:140-149 | which records are retained depends only on the hashes |
| Dashboard.CountersInvisible | app.py:106-171 | the report depends only on the clock, the indexes and the hashes, never on the limiter's counters |
| Dashboard.RefusedSubmitInvisible | app.py:72-83 | a submit that is refused or limited changes no dashboard |
| Dashboard.AcceptedSubmitMentioned | app.py:86-93 | an admitted submit adds one mention to every window of the user's that holds the current time |
| Dashboard.IndexedIdMentioned | app.py:132-134 | a new id scored inside the window adds exactly one mention |
| Dashboard.ProcessedRecordReadsBack | background_tasks.py:27-34 | a record written by the worker reads back on the dashboard with tags equal to the extracted hashtags and the given sentiment, and is retained under its own platform |
| Dashboard.RepeatedTagsRanked | app.py:152-162 | hashtags "x,y,x" rank x before y |
| Dashboard.MissingRecordStillMentioned | app.py:134-165 | two indexed ids, one without a hash: mentions is 2 while the ranking and the mean come from the one record |
| Collections.Update | app.py:154 | `Counter.update`, element by element, equals the specification `UpdateAll` |
| Collections.UpdateAllAppend | app.py:154 | updating with a then b equals updating with a + b |
| Collections.TallyFacts | app.py:135-154 | the counter of a stream is a well-formed dict holding each tag of the stream with its number of occurrences, keys in first-occurrence order |
| Collections.TallyCounts | app.py:154 | the counter holds exactly the stream's tags, each with its multiplicity |
| Collections.TallyOrder | app.py:154 | the counter's keys come in the stream's first-occurrence order |
| Collections.MostCommon | app.py:162 | `most_common()` gives the same pairs, as many, with counts never increasing |
| Collections.MostCommonStable | app.py:162 | most_common keeps, for every count, the order in which the entries came |
| Collections.MostCommonTags | app.py:162 | most_common is a permutation of the entries' keys |
| Collections.InsertDescTags | app.py:162 | one insertion adds exactly one key |
| Collections.RankingFacts | app.py:162 | the ranking lists every tag of the stream exactly once, counts never increase, and per count it agrees with the counter's key order |
| Collections.RankingDistinct | app.py:162 | the ranking has no repeats |
| Collections.RankingOrder | app.py:162 | no repeats, non-increasing counts, and ties in first-occurrence order |
| Collections.TiesInFirstOccurrenceOrder | app.py:162 | two tags of equal count are ranked in the order they first occur in the stream |
| Strings.Split | app.py:154 | `str.split` gives at least one piece and no piece holds the separator |
| Strings.SplitJoin | background_tasks.py:32 | splitting a join of comma-free pieces gives back the pieces |
| Strings.JoinSplit | app.py:154 | joining the pieces of a split gives back the string |
| SortedSet.RangeScanIsRangeByScore | app.py:132 | only one listing is ascending by (score, member) and holds exactly the members scored in the range |
| SortedSet.AscendingUnique | app.py:132 | two ascending listings of the same members are equal |
| SortedSet.RangeGrowsByOne | app.py:93 | adding a new member scored in range adds one to the number in range |
| Redis.Store.ZRangeByScore | app.py:132 | the listing is ascending by (score, member), holds exactly the members scored in [lo, hi], and equals `RangeByScore` |
| Redis.Store.Incr | app.py:47-48 | the new count is the old count (0 if absent or expired) + 1; an absent key restarts with no expiry |
| Redis.Store.Expire | app.py:51-54 | a live key's expiry becomes now + seconds; an absent key stays absent |
| Redis.Store.Ttl | app.py:58 | -2 for an absent key, -1 for no expiry, else the positive seconds left |
| Redis.Store.HGetAll | app.py:141 | the hash stored at the key, or no field at all when there is none |
| Redis.Store.HmSet | app.py:96-100 | the given fields overwrite, the others are kept |
| Redis.Store.ZAdd | app.py:93 | the member gets the score; other members unchanged |
| Redis.OverlayIdempotent | background_tasks.py:28-34 | writing the same fields twice equals writing them once |
| BackgroundTasks.ExtractHashtags | background_tasks.py:9-10 | every tag found is a non-empty run of word characters |
| BackgroundTasks.ExtractFindsEveryHash | background_tasks.py:9-10 | the left-to-right findall scan equals the reference "one tag at every '#' followed by a word character" |
| BackgroundTasks.TagsHoldNoHashOrComma | background_tasks.py:9-10 | every tag is non-empty and holds neither '#' nor ',' |
| BackgroundTasks.NoHashNoTags | background_tasks.py:9-10 | content with no '#' followed by a word character yields no tag |
| BackgroundTasks.JoinedTagsSplitBack | background_tasks.py:32 | the comma-joined tags are "" exactly when there are none, and otherwise split back into the tags |
| BackgroundTasks.ProcessSubmission | background_tasks.py:27-41 | the new store is `ProcessWrites` of the old: HMSET of all five fields, then ZADD of the id at the parsed epoch |
| BackgroundTasks.ProcessOverwrites | background_tasks.py:27-41 | the record becomes the full analysis record whatever it was, the id's score becomes the epoch; no other hash, index entry, counter or the clock changes |
| BackgroundTasks.ProcessIdempotent | background_tasks.py:27-41 | running the writes twice with the same arguments equals running them once |

## Left out

- HTTP and JSON are left out: Flask routing, request parsing, status codes and the `Retry-After` header. The handlers' answers are datatypes.
- Concurrency is left out. The store is single-threaded, so the race between INCR and EXPIRE, and interleaved requests, are not modelled.
- `time.time()` is the clock field `Db.now`. `time.strptime`/`time.mktime` parsing is not modelled: a dashboard time parameter arrives as absent, a parsed epoch, or malformed.
- BackgroundTasks.ProcessSubmission: takes the parsed epoch as an argument, so the failure path of background_tasks.py:37 is not modelled. There, a malformed timestamp raises after the HMSET of lines 28-34 has overwritten the record, and the ZADD of line 41 never runs.
- `uuid.uuid4()` is the `freshId` argument. Its uniqueness is the `Fresh` precondition.
- The thresholds read from environment variables are the `RateTable` argument; `Defaults` holds the fallback values.
- TextBlob's sentiment polarity is an argument of `ProcessSubmission`. `calculate_sentiment` is not modelled.
- Floating point is modelled as `real`. Float rounding, `float()` parsing of the stored text and Redis's string encoding of values are not modelled.
- Python's `\w` is modelled as ASCII letters, digits and `_`. Unicode word characters are not.
- `print`, `time.sleep` and the RQ job queue are left out: they have no effect on the store.
- Redis errors are left out: WRONGTYPE, 64-bit overflow of INCR, and redis-py's rejection of a `None` platform field in HMSET.
- The bytes/str decoding of ids and fields is left out. Keys and fields are strings.
- test_submission.py is not part of this model.
