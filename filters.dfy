/**
 * The quality filter: a weighted score written onto every raw tweet, a six-part
 * admission test, then a stable sort by score, best first, capped at 50.
 */
module Filters {
  import opened Wrappers
  import opened Seqs
  import opened Sorting
  import opened Constants
  import opened Records
  import opened State

  /** likes + 2 retweets + 1.5 replies + 3 quotes, plus 100 for a verified author. */
  function QualityScore(r: TweetRecord): real {
    r.likes as real * 1.0 + r.retweets as real * 2.0 + r.replies as real * 1.5
      + r.quotes as real * 3.0 + (if r.authorVerified then 100.0 else 0.0)
  }

  /** Twice the quality score, which is always an integer; the sort key. */
  function DoubledScore(r: TweetRecord): int {
    2 * r.likes + 4 * r.retweets + 3 * r.replies + 6 * r.quotes + (if r.authorVerified then 200 else 0)
  }

  /** The integer key orders tweets exactly as the real-valued score does. */
  lemma DoubledScoreOrder(a: TweetRecord, b: TweetRecord)
    ensures QualityScore(a) == DoubledScore(a) as real / 2.0
    ensures DoubledScore(a) >= DoubledScore(b) <==> QualityScore(a) >= QualityScore(b)
    ensures DoubledScore(a) == DoubledScore(b) <==> QualityScore(a) == QualityScore(b)
  {
  }

  predicate MeetsEngagement(r: TweetRecord, cfg: TopicConfig) {
    r.totalEngagement >= cfg.engagementThreshold
  }

  predicate GoodRatio(r: TweetRecord) {
    r.engagementRatio >= 0.001
  }

  predicate MeaningfulLikes(r: TweetRecord, cfg: TopicConfig) {
    r.likes as real >= cfg.engagementThreshold as real * 0.4
  }

  /** Retweets at most twice the likes (bot detection). */
  predicate ReasonableRetweets(r: TweetRecord) {
    r.retweets <= r.likes * 2
  }

  /** Replies at most 80% of the total engagement (spam detection). */
  predicate NotSpam(r: TweetRecord) {
    r.replies as real <= r.totalEngagement as real * 0.8
  }

  predicate Reputable(r: TweetRecord, cfg: TopicConfig) {
    r.authorVerified || r.authorFollowers >= cfg.followerThreshold
    || r.totalEngagement >= cfg.engagementThreshold * 4
  }

  /** All six tests pass. */
  predicate Admitted(r: TweetRecord, cfg: TopicConfig) {
    MeetsEngagement(r, cfg) && GoodRatio(r) && MeaningfulLikes(r, cfg)
    && ReasonableRetweets(r) && NotSpam(r) && Reputable(r, cfg)
  }

  /** The named constants are the values the filter's tests hard-code. */
  lemma NamedConstantsAgree(r: TweetRecord)
    ensures GoodRatio(r) <==> r.engagementRatio >= MinEngagementRatio
    ensures NotSpam(r) <==> r.replies as real <= r.totalEngagement as real * SpamReplyThreshold
    ensures ReasonableRetweets(r) <==> r.retweets <= r.likes * BotRtMultiplier
  {
  }

  /**
   * For a tweet whose ratio is total / max(followers, 1), the ratio test is the
   * integer comparison 1000 * total >= max(followers, 1).
   */
  lemma RatioCrossMultiplied(r: TweetRecord)
    requires r.engagementRatio == r.totalEngagement as real / Max(r.authorFollowers, 1) as real
    ensures GoodRatio(r) <==> 1000 * r.totalEngagement >= Max(r.authorFollowers, 1)
  {
    QuotientAtLeast(r.totalEngagement as real, Max(r.authorFollowers, 1) as real);
  }

  lemma QuotientAtLeast(x: real, d: real)
    requires d >= 1.0
    ensures x / d >= 0.001 <==> 1000.0 * x >= d
  {
    var q := x / d;
    assert q * d == x;
    assert (q - 0.001) * d == x - 0.001 * d;
    if q >= 0.001 {
      assert (q - 0.001) * d >= 0.0;
    } else {
      assert (0.001 - q) * d > 0.0;
    }
  }

  /** Raising the engagement threshold, all else fixed, never admits a rejected tweet. */
  lemma ThresholdMonotone(r: TweetRecord, cfg: TopicConfig, higher: int)
    requires cfg.engagementThreshold <= higher
    ensures Admitted(r, cfg.(engagementThreshold := higher)) ==> Admitted(r, cfg)
  {
  }

  /** The admitted raw tweets, in raw order. */
  function AdmittedTweets(raw: seq<Tweet>, cfg: TopicConfig): seq<Tweet> {
    Filter(raw, (t: Tweet) => Admitted(t.rec, cfg))
  }

  const MaxQualityTweets: nat := 50

  /** `sorted(admitted, key=quality_score, reverse=True)[:50]`. */
  function QualityTweets(raw: seq<Tweet>, cfg: TopicConfig): seq<Tweet> {
    Take(SortDesc(AdmittedTweets(raw, cfg), (t: Tweet) => DoubledScore(t.rec)), MaxQualityTweets)
  }

  /** Raising the threshold only removes tweets from the admitted list. */
  lemma AdmittedShrinks(raw: seq<Tweet>, cfg: TopicConfig, higher: int)
    requires cfg.engagementThreshold <= higher
    ensures forall t :: t in AdmittedTweets(raw, cfg.(engagementThreshold := higher)) ==> t in AdmittedTweets(raw, cfg)
  {
    var hi := AdmittedTweets(raw, cfg.(engagementThreshold := higher));
    forall t | t in hi ensures t in AdmittedTweets(raw, cfg) {
      var k :| 0 <= k < |hi| && hi[k] == t;
      ThresholdMonotone(t.rec, cfg, higher);
      var a :| 0 <= a < |raw| && raw[a] == t;
    }
  }

  /** At most 50 tweets, each an admitted raw tweet; fewer than 50 only when all admitted ones are kept. */
  lemma QualityTweetsMembers(raw: seq<Tweet>, cfg: TopicConfig)
    ensures |QualityTweets(raw, cfg)| == Min(MaxQualityTweets, |AdmittedTweets(raw, cfg)|)
    ensures forall i :: 0 <= i < |QualityTweets(raw, cfg)| ==>
      QualityTweets(raw, cfg)[i] in raw && Admitted(QualityTweets(raw, cfg)[i].rec, cfg)
    ensures |AdmittedTweets(raw, cfg)| <= MaxQualityTweets ==>
      forall t :: t in raw && Admitted(t.rec, cfg) ==> t in QualityTweets(raw, cfg)
  {
    var adm := AdmittedTweets(raw, cfg);
    var key := (t: Tweet) => DoubledScore(t.rec);
    var sorted := SortDesc(adm, key);
    SortDescPerm(adm, key);
    forall i | 0 <= i < |QualityTweets(raw, cfg)|
      ensures QualityTweets(raw, cfg)[i] in raw && Admitted(QualityTweets(raw, cfg)[i].rec, cfg)
    {
      assert sorted[i] in multiset(adm);
      var k :| 0 <= k < |adm| && adm[k] == sorted[i];
    }
    if |adm| <= MaxQualityTweets {
      assert QualityTweets(raw, cfg) == sorted;
      forall t | t in raw && Admitted(t.rec, cfg) ensures t in sorted {
        var k :| 0 <= k < |raw| && raw[k] == t;
        assert t in multiset(adm);
      }
    }
  }

  /** Best first: the quality scores never increase along the list. */
  lemma QualityTweetsOrdered(raw: seq<Tweet>, cfg: TopicConfig)
    ensures forall i, j :: 0 <= i < j < |QualityTweets(raw, cfg)| ==>
      QualityScore(QualityTweets(raw, cfg)[i].rec) >= QualityScore(QualityTweets(raw, cfg)[j].rec)
  {
    var key := (t: Tweet) => DoubledScore(t.rec);
    var sorted := SortDesc(AdmittedTweets(raw, cfg), key);
    SortDescFacts(AdmittedTweets(raw, cfg), key);
    forall i, j | 0 <= i < j < |QualityTweets(raw, cfg)|
      ensures QualityScore(QualityTweets(raw, cfg)[i].rec) >= QualityScore(QualityTweets(raw, cfg)[j].rec)
    {
      DoubledScoreOrder(sorted[i].rec, sorted[j].rec);
    }
  }

  /** Tweets with equal scores keep their raw order (the sort is stable). */
  lemma QualityTweetsTies(raw: seq<Tweet>, cfg: TopicConfig, i: nat, j: nat)
    requires i < j < |QualityTweets(raw, cfg)|
    requires QualityScore(QualityTweets(raw, cfg)[i].rec) == QualityScore(QualityTweets(raw, cfg)[j].rec)
    ensures exists a, b :: 0 <= a < b < |raw| && raw[a] == QualityTweets(raw, cfg)[i] && raw[b] == QualityTweets(raw, cfg)[j]
  {
    var adm := AdmittedTweets(raw, cfg);
    var key := (t: Tweet) => DoubledScore(t.rec);
    var sorted := SortDesc(adm, key);
    var q := QualityTweets(raw, cfg);
    assert q[i] == sorted[i] && q[j] == sorted[j];
    DoubledScoreOrder(sorted[i].rec, sorted[j].rec);
    var p, r := TiesKeepOrder(adm, key, i, j);
    FilterKeepsOrder(raw, (t: Tweet) => Admitted(t.rec, cfg), p, r);
  }

  /** An admitted tweet that does not make the cut scores no higher than any that does. */
  lemma QualityTweetsAreTheBest(raw: seq<Tweet>, cfg: TopicConfig, t: Tweet)
    requires t in raw && Admitted(t.rec, cfg) && t !in QualityTweets(raw, cfg)
    ensures forall i :: 0 <= i < |QualityTweets(raw, cfg)| ==> QualityScore(QualityTweets(raw, cfg)[i].rec) >= QualityScore(t.rec)
  {
    var adm := AdmittedTweets(raw, cfg);
    var key := (t: Tweet) => DoubledScore(t.rec);
    var k :| 0 <= k < |raw| && raw[k] == t;
    SortDescPerm(adm, key);
    TopPrefix(adm, key, MaxQualityTweets, t);
    forall i | 0 <= i < |QualityTweets(raw, cfg)|
      ensures QualityScore(QualityTweets(raw, cfg)[i].rec) >= QualityScore(t.rec)
    {
      DoubledScoreOrder(QualityTweets(raw, cfg)[i].rec, t.rec);
    }
  }

  /**
   * filter_quality_tweets_advanced. Without an error, every raw tweet gets its quality
   * score and `filtered_tweets` becomes the best 50 admitted tweets; with an error
   * nothing changes.
   */
  method FilterQualityTweets(st: PipelineState)
    modifies st`filteredTweets, (set t | t in st.rawTweets)`qualityScore
    ensures old(st.error).Some? ==> unchanged(st) && unchanged(st.rawTweets)
    ensures old(st.error).None? ==>
      (forall t :: t in st.rawTweets ==> t.qualityScore == Some(QualityScore(t.rec)))
      && st.filteredTweets == QualityTweets(st.rawTweets, st.config)
  {
    if st.error.Some? {
      return;
    }
    var cfg := st.config;
    var raw := st.rawTweets;
    var filtered: seq<Tweet> := [];
    var i := 0;
    while i < |raw|
      invariant 0 <= i <= |raw|
      invariant filtered == AdmittedTweets(raw[..i], cfg)
      invariant forall k :: 0 <= k < i ==> raw[k].qualityScore == Some(QualityScore(raw[k].rec))
    {
      var tweet := raw[i];
      var meetsEngagement := tweet.rec.totalEngagement >= cfg.engagementThreshold;
      var goodRatio := tweet.rec.engagementRatio >= 0.001;
      var hasMeaningfulLikes := tweet.rec.likes as real >= cfg.engagementThreshold as real * 0.4;
      var reasonableRtRatio := tweet.rec.retweets <= tweet.rec.likes * 2;
      var notSpam := tweet.rec.replies as real <= tweet.rec.totalEngagement as real * 0.8;
      var reputableSource := tweet.rec.authorVerified || tweet.rec.authorFollowers >= cfg.followerThreshold
        || tweet.rec.totalEngagement >= cfg.engagementThreshold * 4;
      var score := tweet.rec.likes as real * 1.0 + tweet.rec.retweets as real * 2.0
        + tweet.rec.replies as real * 1.5 + tweet.rec.quotes as real * 3.0
        + (if tweet.rec.authorVerified then 100.0 else 0.0);
      tweet.qualityScore := Some(score);
      if meetsEngagement && goodRatio && hasMeaningfulLikes && reasonableRtRatio && notSpam && reputableSource {
        filtered := filtered + [tweet];
      }
      assert raw[..i + 1][..i] == raw[..i];
      i := i + 1;
    }
    assert raw[..|raw|] == raw;
    // Every admitted tweet now carries its score, so sorting on the doubled score taken
    // from the record orders them as `key=lambda x: x['quality_score']` does.
    st.filteredTweets := Take(SortDesc(filtered, (t: Tweet) => DoubledScore(t.rec)), MaxQualityTweets);
  }
}
