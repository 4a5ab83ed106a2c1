/** The analysis worker of background_tasks.py: hashtag extraction and the
    store writes of process_submission. */
module BackgroundTasks {
  import opened Wrappers
  import opened Strings
  import opened Redis
  import opened Keys
  import L = Limiter

  /** The regex class `\w`, restricted to ASCII: letters, digits and '_'. */
  predicate IsWordChar(c: char)
  {
    ('a' <= c <= 'z') || ('A' <= c <= 'Z') || ('0' <= c <= '9') || c == '_'
  }

  /** The length of the run of word characters that `s` starts with. */
  function WordRun(s: string): (n: nat)
    ensures n <= |s|
    ensures forall i :: 0 <= i < n ==> IsWordChar(s[i])
    ensures n < |s| ==> !IsWordChar(s[n])
  {
    if |s| > 0 && IsWordChar(s[0]) then 1 + WordRun(s[1..]) else 0
  }

  /** `#(\w+)` can match at the start of `s`. */
  predicate StartsTag(s: string)
  {
    |s| >= 2 && s[0] == '#' && IsWordChar(s[1])
  }

  /** The tag captured by a match at the start of `s`: the longest run of word
      characters after the '#'. */
  function TagAt(s: string): string
    requires StartsTag(s)
  {
    s[1..1 + WordRun(s[1..])]
  }

  /** extract_hashtags: `re.findall(r"#(\w+)", content)`. The scan tries each
      position left to right; a match consumes the '#' and its tag, and the
      scan resumes right after it. */
  function ExtractHashtags(content: string): (tags: seq<string>)
    ensures forall t :: t in tags ==> |t| > 0 && forall i :: 0 <= i < |t| ==> IsWordChar(t[i])
    decreases |content|
  {
    if |content| == 0 then []
    else if StartsTag(content) then
      var n := WordRun(content[1..]);
      [content[1..1 + n]] + ExtractHashtags(content[1 + n..])
    else ExtractHashtags(content[1..])
  }

  /** Reference reading of the same regex: one tag for every '#' followed by a
      word character, in order of position, whatever precedes that '#'. */
  function TagsAtEveryHash(content: string): seq<string>
    decreases |content|
  {
    if |content| == 0 then []
    else (if StartsTag(content) then [TagAt(content)] else []) + TagsAtEveryHash(content[1..])
  }

  /** No '#' lies inside a run of word characters, so skipping the run skips no tag. */
  lemma {:induction false} SkipWordRun(s: string, k: nat)
    requires k <= |s| && forall i :: 0 <= i < k ==> IsWordChar(s[i])
    ensures TagsAtEveryHash(s) == TagsAtEveryHash(s[k..])
  {
    if k > 0 {
      assert !StartsTag(s);
      SkipWordRun(s[1..], k - 1);
      assert s[1..][k - 1..] == s[k..];
    }
  }

  /** The scan finds exactly one tag at every '#' followed by a word character:
      no such '#' is ever swallowed by the match before it. */
  lemma {:induction false} ExtractFindsEveryHash(content: string)
    ensures ExtractHashtags(content) == TagsAtEveryHash(content)
    decreases |content|
  {
    if |content| > 0 {
      if StartsTag(content) {
        var n := WordRun(content[1..]);
        ExtractFindsEveryHash(content[1 + n..]);
        SkipWordRun(content[1..], n);
        assert content[1..][n..] == content[1 + n..];
      } else {
        ExtractFindsEveryHash(content[1..]);
      }
    }
  }

  /** Every tag is non-empty and holds neither '#' nor ','. */
  lemma TagsHoldNoHashOrComma(content: string)
    ensures forall t :: t in ExtractHashtags(content) ==> |t| > 0 && '#' !in t && ',' !in t
  {
    forall t | t in ExtractHashtags(content)
      ensures '#' !in t && ',' !in t
    {
      assert forall i :: 0 <= i < |t| ==> IsWordChar(t[i]);
    }
  }

  /** Content in which no '#' is followed by a word character yields no tag. */
  lemma {:induction false} NoHashNoTags(content: string)
    requires forall i :: 0 <= i < |content| - 1 ==> !(content[i] == '#' && IsWordChar(content[i + 1]))
    ensures ExtractHashtags(content) == []
  {
    if |content| > 0 {
      assert !StartsTag(content);
      NoHashNoTags(content[1..]);
    }
  }

  lemma {:induction false} JoinLength(parts: seq<string>, sep: char)
    requires |parts| > 0
    ensures |Join(parts, sep)| >= |parts[0]|
  {
  }

  /** The comma-joined tags split back into the tags; no tags join to "". */
  lemma JoinedTagsSplitBack(content: string)
    ensures var tags := ExtractHashtags(content);
      && (tags == [] <==> Join(tags, ',') == "")
      && (tags != [] ==> Split(Join(tags, ','), ',') == tags)
  {
    var tags := ExtractHashtags(content);
    TagsHoldNoHashOrComma(content);
    if tags != [] {
      JoinLength(tags, ',');
      assert tags[0] in tags;
      SplitJoin(tags, ',');
    }
  }

  /** The hash process_submission writes: all five fields. */
  function AnalysisRecord(platform: string, content: string, timestamp: string, sentiment: real): Record
  {
    Record(Some(platform), Some(content), Some(timestamp), Some(Join(ExtractHashtags(content), ',')), Some(sentiment))
  }

  /** The store writes of process_submission: the record hash, then the id's
      score in the user's index. */
  function ProcessWrites(db: Db, platform: string, content: string, timestamp: string, epoch: int,
                         analysisId: string, userId: string, sentiment: real): Db
  {
    var db1 := WithFields(db, RecordKey(analysisId), AnalysisRecord(platform, content, timestamp, sentiment));
    WithMember(db1, IndexKey(userId), analysisId, epoch)
  }

  /** process_submission, with the sentiment score and the parsed epoch given. */
  method ProcessSubmission(store: Store, platform: string, content: string, timestamp: string, epoch: int,
                           analysisId: string, userId: string, sentiment: real)
    modifies store
    ensures store.Snapshot() == ProcessWrites(old(store.Snapshot()), platform, content, timestamp, epoch,
                                              analysisId, userId, sentiment)
  {
    var hashtags := ExtractHashtags(content);
    var record := Record(Some(platform), Some(content), Some(timestamp), Some(Join(hashtags, ',')), Some(sentiment));
    store.HmSet(RecordKey(analysisId), record);
    store.ZAdd(IndexKey(userId), analysisId, epoch);
  }

  /** process_submission replaces every field of the record, whatever was there
      before, sets the id's score in the user's index to the epoch, and changes
      no other hash, no other index entry, no counter and not the clock. */
  lemma ProcessOverwrites(db: Db, platform: string, content: string, timestamp: string, epoch: int,
                          analysisId: string, userId: string, sentiment: real)
    ensures var r := ProcessWrites(db, platform, content, timestamp, epoch, analysisId, userId, sentiment);
      && HashAt(r, RecordKey(analysisId)) == AnalysisRecord(platform, content, timestamp, sentiment)
      && (forall k :: k != RecordKey(analysisId) ==> HashAt(r, k) == HashAt(db, k))
      && ZSetAt(r, IndexKey(userId)) == ZSetAt(db, IndexKey(userId))[analysisId := epoch]
      && (forall k :: k != IndexKey(userId) ==> ZSetAt(r, k) == ZSetAt(db, k))
      && r.counters == db.counters && r.now == db.now
  {
  }

  /** Running the writes twice with the same arguments leaves the store as
      running them once: both writes overwrite. */
  lemma ProcessIdempotent(db: Db, platform: string, content: string, timestamp: string, epoch: int,
                          analysisId: string, userId: string, sentiment: real)
    ensures var once := ProcessWrites(db, platform, content, timestamp, epoch, analysisId, userId, sentiment);
      ProcessWrites(once, platform, content, timestamp, epoch, analysisId, userId, sentiment) == once
  {
    var once := ProcessWrites(db, platform, content, timestamp, epoch, analysisId, userId, sentiment);
    var record := AnalysisRecord(platform, content, timestamp, sentiment);
    var again := WithFields(once, RecordKey(analysisId), record);
    assert Overlay(record, record) == record;
    assert again.hashes == once.hashes;
    assert ZSetAt(again, IndexKey(userId))[analysisId := epoch] == ZSetAt(once, IndexKey(userId));
    assert again.zsets[IndexKey(userId) := ZSetAt(once, IndexKey(userId))] == once.zsets;
  }

  /** The worker's writes leave the limiter's windows armed. */
  lemma ProcessKeepsArmed(db: Db, platform: string, content: string, timestamp: string, epoch: int,
                          analysisId: string, userId: string, sentiment: real)
    requires L.Armed(db)
    ensures L.Armed(ProcessWrites(db, platform, content, timestamp, epoch, analysisId, userId, sentiment))
  {
    L.ArmedReadsCounters(db, ProcessWrites(db, platform, content, timestamp, epoch, analysisId, userId, sentiment));
  }
}
