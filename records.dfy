/** The entities the stages pass along: tweet records, comments, media and generated pieces. */
module Records {
  import opened Wrappers
  import opened JsonValues

  /** One attached media item: its type and its url (or preview image url). */
  datatype MediaEntry = MediaEntry(kind: string, url: Option<string>)

  /** The record the scraper builds for one tweet. */
  datatype TweetRecord = TweetRecord(
    id: nat,
    text: string,
    createdAt: string,
    authorUsername: string,
    authorVerified: bool,
    authorFollowers: nat,
    authorProfileImage: Option<string>,
    likes: nat,
    retweets: nat,
    replies: nat,
    quotes: nat,
    totalEngagement: nat,
    engagementRatio: real,
    conversationId: nat,
    media: seq<MediaEntry>,
    urls: seq<string>,
    tweetUrl: Option<string>)

  /** A reply in a tweet's conversation. */
  datatype Comment = Comment(text: string, likes: nat, createdAt: string)

  /**
   * A tweet dict. The scraped record never changes; the later stages add keys to the
   * same dict in place, and `raw_tweets` and `filtered_tweets` share it by reference.
   * A key not yet written is `None`.
   */
  class Tweet {
    const rec: TweetRecord
    var qualityScore: Option<real>
    var comments: Option<seq<Comment>>
    var commentCount: Option<nat>
    var factCheck: Option<Json>

    constructor (rec: TweetRecord)
      ensures this.rec == rec
      ensures qualityScore.None? && comments.None? && commentCount.None? && factCheck.None?
    {
      this.rec := rec;
      qualityScore := None;
      comments := None;
      commentCount := None;
      factCheck := None;
    }
  }

  /** The scraped record of a tweet. */
  function Rec(t: Tweet): TweetRecord {
    t.rec
  }

  /** None of the keys the later stages add has been written yet. */
  predicate Unenriched(t: Tweet)
    reads t
  {
    t.qualityScore.None? && t.comments.None? && t.commentCount.None? && t.factCheck.None?
  }

  /** A generated script. */
  datatype ScriptVariant = ScriptVariant(variantName: string, description: string, script: string, wordCount: nat)

  /**
   * A media suggestion: a screenshot of a tweet, or a B-roll clip of a viral moment
   * (whose other keys are constants).
   */
  datatype MediaSuggestion =
    | TweetShot(kind: string, timestamp: string, description: string, tweetUrl: Option<string>, reasoning: string)
    | VideoClip(moment: Json)
  {
    function Kind(): string {
      if TweetShot? then kind else "video_clip"
    }

    function Timestamp(): string {
      if TweetShot? then timestamp else "[B-ROLL]"
    }
  }

  const ClipSource: string := "YouTube/NFL highlights"
  const ClipReasoning: string := "Viral moment mentioned in tweets"
}
