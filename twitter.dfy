/**
 * Tweet scraping: one recent search whose query adds the trending hashtags to the
 * preset's base query, one record per returned tweet (author, metrics, media, links),
 * and the records sorted by total engagement, highest first.
 */
module Twitter {
  import opened Wrappers
  import opened Seqs
  import opened Sorting
  import opened Text
  import opened Constants
  import opened Records
  import opened Services
  import opened State
  import opened Hashtags

  const ScrapeErrorPrefix: string := "Error scraping tweets: "
  const NoTweetsMessage: string := "No tweets found"
  const MaxQueryHashtags: nat := 5
  const OrSep: string := " OR "
  const TweetUrlPrefix: string := "https://twitter.com/"
  const StatusInfix: string := "/status/"
  const UnknownAuthor: string := "unknown"

  // ------------------------------------------------------------------ query

  /** The base query, or-ed with the first five trending hashtags when there are any. */
  function ScrapeQuery(base: string, hashtags: seq<string>): string {
    if hashtags == [] then base + QuerySuffix
    else "(" + base + OrSep + Join(OrSep, Take(hashtags, MaxQueryHashtags)) + ")" + QuerySuffix
  }

  function ScrapeRequest(base: string, hashtags: seq<string>): SearchRequest {
    SearchRequest(ScrapeQuery(base, hashtags), MaxTweetsPerRequest, ScrapeFields)
  }

  /**
   * Without trending hashtags the scrape sends the hashtag stage's query string, but asks
   * for more fields, so it is a request of its own.
   */
  lemma QueryWithoutHashtags(base: string)
    ensures ScrapeRequest(base, []).query == HashtagRequest(base).query
    ensures ScrapeRequest(base, []) != HashtagRequest(base)
  {
  }

  /** Hashtags after the fifth do not change the query. */
  lemma QueryUsesFirstFive(base: string, hashtags: seq<string>)
    ensures ScrapeQuery(base, hashtags) == ScrapeQuery(base, Take(hashtags, MaxQueryHashtags))
  {
    var t := Take(hashtags, MaxQueryHashtags);
    assert Take(t, MaxQueryHashtags) == t;
    assert hashtags != [] ==> t != [];
  }

  /**
   * With hashtags that hold no space, the query is the base and a part that splits on
   * " OR " back into exactly the first five hashtags.
   */
  lemma QueryHashtagsRecoverable(base: string, hashtags: seq<string>)
    requires hashtags != [] && forall i :: 0 <= i < |hashtags| ==> ' ' !in hashtags[i]
    ensures exists part ::
      && ScrapeQuery(base, hashtags) == "(" + base + OrSep + part + ")" + QuerySuffix
      && Split(part, OrSep) == Take(hashtags, MaxQueryHashtags)
  {
    var top := Take(hashtags, MaxQueryHashtags);
    SplitJoin(top, OrSep);
    var part := Join(OrSep, top);
    assert ScrapeQuery(base, hashtags) == "(" + base + OrSep + part + ")" + QuerySuffix;
  }

  // ---------------------------------------------------------------- records

  function UserId(u: ApiUser): nat {
    u.id
  }

  function MediaKey(m: ApiMedia): string {
    m.mediaKey
  }

  /** `users_dict`: the included users by id. */
  function UserIndex(users: seq<ApiUser>): map<nat, ApiUser> {
    IndexBy(users, UserId)
  }

  /** `media_dict`: the included media by media key. */
  function MediaIndex(media: seq<ApiMedia>): map<string, ApiMedia> {
    IndexBy(media, MediaKey)
  }

  /** `url or preview_image_url`: an empty or absent url falls back to the preview. */
  function MediaUrl(m: ApiMedia): (r: Option<string>)
    ensures r == m.url || r == m.previewImageUrl
    ensures m.url.Some? && m.url.value != "" ==> r == m.url
  {
    if m.url.Some? && m.url.value != "" then m.url else m.previewImageUrl
  }

  function MediaEntryOf(m: ApiMedia): MediaEntry {
    MediaEntry(m.kind, MediaUrl(m))
  }

  /** The media entries of a tweet: one per attached key present in the media map, in key order. */
  function MediaEntries(keys: seq<string>, media: map<string, ApiMedia>): (r: seq<MediaEntry>)
    ensures |r| <= |keys|
  {
    if keys == [] then []
    else
      var k := keys[|keys| - 1];
      MediaEntries(keys[..|keys| - 1], media) + (if k in media then [MediaEntryOf(media[k])] else [])
  }

  /** Every media entry describes the medium of one of the tweet's keys found in the media map. */
  lemma {:induction false} MediaEntriesFromKeys(keys: seq<string>, media: map<string, ApiMedia>, i: nat)
    requires i < |MediaEntries(keys, media)|
    ensures exists k :: k in keys && k in media && MediaEntries(keys, media)[i] == MediaEntryOf(media[k])
  {
    var init := keys[..|keys| - 1];
    var last := keys[|keys| - 1];
    var ri := MediaEntries(init, media);
    assert keys == init + [last];
    if i < |ri| {
      MediaEntriesFromKeys(init, media, i);
      var k :| k in init && k in media && ri[i] == MediaEntryOf(media[k]);
      assert k in keys;
    } else {
      assert MediaEntries(keys, media)[i] == MediaEntryOf(media[last]);
    }
  }

  /** A tweet none of whose keys is in the media map has no media entries. */
  lemma {:induction false} MediaEntriesNone(keys: seq<string>, media: map<string, ApiMedia>)
    requires forall i :: 0 <= i < |keys| ==> keys[i] !in media
    ensures MediaEntries(keys, media) == []
  {
    if keys != [] {
      var init := keys[..|keys| - 1];
      assert forall i :: 0 <= i < |init| ==> init[i] == keys[i];
      MediaEntriesNone(init, media);
    }
  }

  /** When every key is in the media map, entry i describes the medium of key i. */
  lemma {:induction false} MediaEntriesAll(keys: seq<string>, media: map<string, ApiMedia>)
    requires forall i :: 0 <= i < |keys| ==> keys[i] in media
    ensures |MediaEntries(keys, media)| == |keys|
    ensures forall i :: 0 <= i < |keys| ==> MediaEntries(keys, media)[i] == MediaEntryOf(media[keys[i]])
  {
    if keys != [] {
      var init := keys[..|keys| - 1];
      var last := keys[|keys| - 1];
      assert forall i :: 0 <= i < |init| ==> init[i] == keys[i];
      MediaEntriesAll(init, media);
      var ri := MediaEntries(init, media);
      var r := MediaEntries(keys, media);
      assert r == ri + [MediaEntryOf(media[last])];
      forall i | 0 <= i < |keys| ensures r[i] == MediaEntryOf(media[keys[i]]) {
        if i < |init| {
          assert r[i] == ri[i];
        }
      }
    }
  }

  /** The inner loop: `media_urls` for one tweet. */
  method MediaUrls(keys: seq<string>, media: map<string, ApiMedia>) returns (entries: seq<MediaEntry>)
    ensures entries == MediaEntries(keys, media)
  {
    entries := [];
    var j := 0;
    while j < |keys|
      invariant 0 <= j <= |keys|
      invariant entries == MediaEntries(keys[..j], media)
    {
      var key := keys[j];
      if key in media {
        entries := entries + [MediaEntryOf(media[key])];
      }
      assert keys[..j + 1][..j] == keys[..j];
      j := j + 1;
    }
    assert keys[..|keys|] == keys;
  }

  /** "https://twitter.com/{username}/status/{id}". */
  function TweetUrl(username: string, id: nat): string {
    TweetUrlPrefix + username + StatusInfix + NatToString(id)
  }

  /**
   * The record of one tweet. Quotes are not part of the total engagement; the ratio is
   * the total over the follower count (at least one), and an unknown author falls back
   * to "unknown", unverified, no followers, no profile image, ratio 0 and no link.
   */
  function BuildRecord(t: ApiTweet, author: Option<ApiUser>, media: seq<MediaEntry>): (r: TweetRecord)
    ensures r.id == t.id && r.text == t.text && r.conversationId == t.conversationId
    ensures r.likes == t.likes && r.retweets == t.retweets && r.replies == t.replies && r.quotes == t.quotes
    ensures r.totalEngagement == r.likes + r.retweets + r.replies
    ensures r.media == media && r.urls == t.expandedUrls
    ensures author.Some? ==>
      && r.authorUsername == author.value.username && r.authorFollowers == author.value.followers
      && r.engagementRatio * Max(author.value.followers, 1) as real == r.totalEngagement as real
      && r.tweetUrl == Some(TweetUrl(author.value.username, t.id))
    ensures author.None? ==>
      && r.authorUsername == UnknownAuthor && !r.authorVerified && r.authorFollowers == 0
      && r.authorProfileImage.None? && r.engagementRatio == 0.0 && r.tweetUrl.None?
  {
    var total := t.likes + t.retweets + t.replies;
    TweetRecord(
      t.id,
      t.text,
      t.createdAt,
      if author.Some? then author.value.username else UnknownAuthor,
      author.Some? && author.value.verified,
      if author.Some? then author.value.followers else 0,
      if author.Some? then author.value.profileImageUrl else None,
      t.likes,
      t.retweets,
      t.replies,
      t.quotes,
      total,
      if author.Some? then total as real / Max(author.value.followers, 1) as real else 0.0,
      t.conversationId,
      media,
      t.expandedUrls,
      if author.Some? then Some(TweetUrl(author.value.username, t.id)) else None)
  }

  /** The author the users dict gives for a tweet, if any. */
  function AuthorOf(t: ApiTweet, resp: SearchResponse): Option<ApiUser> {
    var users := UserIndex(resp.users);
    if t.authorId in users then Some(users[t.authorId]) else None
  }

  function RecordOf(t: ApiTweet, resp: SearchResponse): TweetRecord {
    BuildRecord(t, AuthorOf(t, resp), MediaEntries(t.mediaKeys, MediaIndex(resp.media)))
  }

  /** The author of a record is an included user with the tweet's author id, if one exists. */
  lemma AuthorIsIncludedUser(t: ApiTweet, resp: SearchResponse)
    ensures AuthorOf(t, resp).Some? <==> exists i :: 0 <= i < |resp.users| && resp.users[i].id == t.authorId
    ensures AuthorOf(t, resp).Some? ==> AuthorOf(t, resp).value in resp.users && AuthorOf(t, resp).value.id == t.authorId
  {
    var users := UserIndex(resp.users);
    if exists i :: 0 <= i < |resp.users| && resp.users[i].id == t.authorId {
      var i :| 0 <= i < |resp.users| && resp.users[i].id == t.authorId;
      assert UserId(resp.users[i]) == t.authorId;
    }
    if t.authorId in users {
      var i :| 0 <= i < |resp.users| && UserId(resp.users[i]) == t.authorId;
    }
  }

  /** `raw_tweets` before the sort: one record per returned tweet, in response order. */
  function RawRecords(resp: SearchResponse): (rs: seq<TweetRecord>)
    ensures |rs| == |resp.data|
  {
    seq(|resp.data|, i requires 0 <= i < |resp.data| => RecordOf(resp.data[i], resp))
  }

  function Engagement(r: TweetRecord): int {
    r.totalEngagement
  }

  function TweetEngagement(t: Tweet): int {
    t.rec.totalEngagement
  }

  /** `sorted(raw_tweets, key=total_engagement, reverse=True)`. */
  function ScrapedRecords(resp: SearchResponse): seq<TweetRecord> {
    SortDesc(RawRecords(resp), Engagement)
  }

  /** The scraped records are the response's records, stably ordered by engagement. */
  lemma ScrapedSortedPermutation(resp: SearchResponse)
    ensures SortedDesc(ScrapedRecords(resp), Engagement)
    ensures multiset(ScrapedRecords(resp)) == multiset(RawRecords(resp))
    ensures |ScrapedRecords(resp)| == |resp.data|
    ensures Stable(RawRecords(resp), ScrapedRecords(resp), Engagement)
  {
    SortDescFacts(RawRecords(resp), Engagement);
  }

  datatype ScrapeResult = ScrapeFailed(msg: string) | NoTweets | Scraped(records: seq<TweetRecord>)

  /** What the stage ends with for a given search client. */
  function ScrapeOutcome(base: string, hashtags: seq<string>, client: Client): ScrapeResult {
    match client(ScrapeRequest(base, hashtags))
    case Err(m) => ScrapeFailed(m)
    case Ok(resp) => if resp.data == [] then NoTweets else Scraped(ScrapedRecords(resp))
  }

  /** The loop over `tweets.data`: one new tweet object per returned tweet, in order. */
  method BuildTweets(resp: SearchResponse) returns (tweets: seq<Tweet>)
    ensures MapSeq(tweets, Rec) == RawRecords(resp) && NoDuplicates(tweets)
    ensures forall t :: t in tweets ==> fresh(t) && Unenriched(t)
  {
    var users := UserIndex(resp.users);
    var media := MediaIndex(resp.media);
    tweets := [];
    var i := 0;
    while i < |resp.data|
      invariant 0 <= i <= |resp.data| && |tweets| == i
      invariant forall k :: 0 <= k < i ==> tweets[k].rec == RecordOf(resp.data[k], resp)
      invariant forall k :: 0 <= k < i ==> fresh(tweets[k]) && Unenriched(tweets[k])
      invariant NoDuplicates(tweets)
    {
      var tweet := resp.data[i];
      var author := if tweet.authorId in users then Some(users[tweet.authorId]) else None;
      var mediaUrls := MediaUrls(tweet.mediaKeys, media);
      var t := new Tweet(BuildRecord(tweet, author, mediaUrls));
      tweets := tweets + [t];
      i := i + 1;
    }
    assert MapSeq(tweets, Rec) == RawRecords(resp);
  }

  /** Sorting the tweet objects by engagement sorts their records the same way. */
  lemma SortedTweets(tweets: seq<Tweet>, resp: SearchResponse)
    requires MapSeq(tweets, Rec) == RawRecords(resp) && NoDuplicates(tweets)
    ensures MapSeq(SortDesc(tweets, TweetEngagement), Rec) == ScrapedRecords(resp)
    ensures multiset(SortDesc(tweets, TweetEngagement)) == multiset(tweets)
    ensures NoDuplicates(SortDesc(tweets, TweetEngagement))
  {
    SortDescMap(tweets, Rec, TweetEngagement, Engagement);
    SortDescPerm(tweets, TweetEngagement);
    PermutationNoDuplicates(tweets, SortDesc(tweets, TweetEngagement));
  }

  /**
   * scrape_enhanced_tweets. With an error already set nothing happens. A failing search
   * records "Error scraping tweets: …" and an empty one "No tweets found", leaving
   * `raw_tweets` alone; otherwise `raw_tweets` becomes new, distinct tweet objects
   * holding the scraped records in engagement order.
   */
  method ScrapeTweets(st: PipelineState, client: Client)
    modifies st`rawTweets, st`error
    ensures old(st.error).Some? ==> unchanged(st)
    ensures old(st.error).None? ==>
      match ScrapeOutcome(st.config.searchBase, st.trendingHashtags, client)
      case ScrapeFailed(m) => st.error == Some(ScrapeErrorPrefix + m) && st.rawTweets == old(st.rawTweets)
      case NoTweets => st.error == Some(NoTweetsMessage) && st.rawTweets == old(st.rawTweets)
      case Scraped(records) =>
        && st.error.None? && MapSeq(st.rawTweets, Rec) == records && NoDuplicates(st.rawTweets)
        && forall t :: t in st.rawTweets ==> fresh(t) && Unenriched(t)
  {
    if st.error.Some? {
      return;
    }
    var response := client(ScrapeRequest(st.config.searchBase, st.trendingHashtags));
    if response.Err? {
      st.error := Some(ScrapeErrorPrefix + response.msg);
      return;
    }
    var resp := response.value;
    if resp.data == [] {
      st.error := Some(NoTweetsMessage);
      return;
    }
    var tweets := BuildTweets(resp);
    var sorted := SortDesc(tweets, TweetEngagement);
    SortedTweets(tweets, resp);
    assert multiset(sorted) == multiset(tweets);
    forall t | t in sorted ensures fresh(t) && Unenriched(t) {
      assert t in multiset(sorted);
      assert t in tweets;
    }
    st.rawTweets := sorted;
  }
}
