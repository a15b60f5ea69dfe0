/**
 * Comment scraping: for each of the first fifteen quality tweets, fetch its
 * conversation, keep the thirty most-liked replies and the number fetched; a failed
 * fetch leaves that tweet with no comments, and the list is cut to those fifteen.
 */
module Comments {
  import opened Wrappers
  import opened Seqs
  import opened Sorting
  import opened Text
  import opened Constants
  import opened Records
  import opened Services
  import opened State

  const MaxCommentedTweets: nat := 15
  const MaxKeptComments: nat := 30
  const ConversationPrefix: string := "conversation_id:"

  /** The search for a tweet's conversation. */
  function ConversationRequest(conversationId: nat): SearchRequest {
    SearchRequest(ConversationPrefix + NatToString(conversationId), MaxCommentsPerTweet, ConversationFields)
  }

  function CommentOf(t: ApiTweet): Comment {
    Comment(t.text, t.likes, t.createdAt)
  }

  function Likes(c: Comment): int {
    c.likes
  }

  /** What one fetch gives a tweet: a failure, no replies, or the kept replies and their number. */
  datatype CommentFetch = FetchFailed | NoReplies | Replies(comments: seq<Comment>, count: nat)

  /** `sorted(comments, key=likes, reverse=True)[:30]`. */
  function KeptComments(data: seq<ApiTweet>): seq<Comment> {
    Take(SortDesc(MapSeq(data, CommentOf), Likes), MaxKeptComments)
  }

  function FetchComments(conversationId: nat, client: Client): CommentFetch {
    match client(ConversationRequest(conversationId))
    case Err(_) => FetchFailed
    case Ok(resp) => if resp.data == [] then NoReplies else Replies(KeptComments(resp.data), |resp.data|)
  }

  /** A tweet's `comments` after a fetch: a failure writes [], no replies write nothing. */
  function CommentsAfter(prior: Option<seq<Comment>>, f: CommentFetch): Option<seq<Comment>> {
    match f
    case FetchFailed => Some([])
    case NoReplies => prior
    case Replies(cs, _) => Some(cs)
  }

  /** A tweet's `comment_count` after a fetch: a failure writes 0, no replies write nothing. */
  function CountAfter(prior: Option<nat>, f: CommentFetch): Option<nat> {
    match f
    case FetchFailed => Some(0)
    case NoReplies => prior
    case Replies(_, n) => Some(n)
  }

  /** Writing the same fetch's outcome twice is the same as writing it once. */
  lemma AfterIdempotent(c: Option<seq<Comment>>, n: Option<nat>, f: CommentFetch)
    ensures CommentsAfter(CommentsAfter(c, f), f) == CommentsAfter(c, f)
    ensures CountAfter(CountAfter(n, f), f) == CountAfter(n, f)
  {
  }

  /**
   * Exactly min(30, n) of the n fetched replies are kept, in non-increasing like order,
   * each kept reply taken from the fetched ones no more often than it occurs there, and
   * the count is the number fetched before the cap.
   */
  lemma RepliesShape(conversationId: nat, client: Client)
    requires FetchComments(conversationId, client).Replies?
    ensures var f := FetchComments(conversationId, client);
      && |f.comments| == Min(MaxKeptComments, f.count)
      && SortedDesc(f.comments, Likes)
      && f.count == |client(ConversationRequest(conversationId)).value.data|
      && multiset(f.comments) <= multiset(MapSeq(client(ConversationRequest(conversationId)).value.data, CommentOf))
  {
    var data := client(ConversationRequest(conversationId)).value.data;
    var all := MapSeq(data, CommentOf);
    var sorted := SortDesc(all, Likes);
    SortDescFacts(all, Likes);
    var kept := KeptComments(data);
    assert sorted == kept + sorted[|kept|..];
    assert multiset(sorted) == multiset(kept) + multiset(sorted[|kept|..]);
  }

  /** Every kept comment has at least as many likes as any fetched reply that was cut. */
  lemma KeptAreMostLiked(data: seq<ApiTweet>, c: Comment)
    requires c in MapSeq(data, CommentOf) && c !in KeptComments(data)
    ensures forall i :: 0 <= i < |KeptComments(data)| ==> KeptComments(data)[i].likes >= c.likes
  {
    TopPrefix(MapSeq(data, CommentOf), Likes, MaxKeptComments, c);
  }

  /** The inner loop: one comment per conversation tweet, in response order. */
  method CollectComments(data: seq<ApiTweet>) returns (comments: seq<Comment>)
    ensures comments == MapSeq(data, CommentOf)
  {
    comments := [];
    var k := 0;
    while k < |data|
      invariant 0 <= k <= |data| && |comments| == k
      invariant forall j :: 0 <= j < k ==> comments[j] == CommentOf(data[j])
    {
      comments := comments + [CommentOf(data[k])];
      k := k + 1;
    }
  }

  /** One iteration of the loop: fetch one tweet's conversation and write what it gives. */
  method FetchInto(t: Tweet, client: Client)
    modifies t`comments, t`commentCount
    ensures t.comments == CommentsAfter(old(t.comments), FetchComments(t.rec.conversationId, client))
    ensures t.commentCount == CountAfter(old(t.commentCount), FetchComments(t.rec.conversationId, client))
  {
    var response := client(ConversationRequest(t.rec.conversationId));
    if response.Err? {
      t.comments := Some([]);
      t.commentCount := Some(0);
    } else if response.value.data != [] {
      var comments := CollectComments(response.value.data);
      t.comments := Some(Take(SortDesc(comments, Likes), MaxKeptComments));
      t.commentCount := Some(|comments|);
    }
  }

  /**
   * scrape_comments_detailed. With an error set or no quality tweets nothing happens.
   * Otherwise each of the first fifteen tweets carries what its fetch gave, the other
   * tweets are untouched, and `filtered_tweets` becomes those fifteen; `error` is never
   * written.
   */
  method ScrapeComments(st: PipelineState, client: Client)
    modifies st`filteredTweets
    modifies (set t | t in st.filteredTweets)`comments, (set t | t in st.filteredTweets)`commentCount
    ensures old(st.error).Some? || old(st.filteredTweets) == [] ==>
      unchanged(st) && unchanged(old(st.filteredTweets))
    ensures old(st.error).None? && old(st.filteredTweets) != [] ==>
      && st.filteredTweets == Take(old(st.filteredTweets), MaxCommentedTweets)
      && (forall t :: t in st.filteredTweets ==>
            && t.comments == CommentsAfter(old(t.comments), FetchComments(t.rec.conversationId, client))
            && t.commentCount == CountAfter(old(t.commentCount), FetchComments(t.rec.conversationId, client)))
      && (forall t :: t in old(st.filteredTweets) && t !in st.filteredTweets ==>
            t.comments == old(t.comments) && t.commentCount == old(t.commentCount))
  {
    if st.error.Some? || st.filteredTweets == [] {
      return;
    }
    var top := Take(st.filteredTweets, MaxCommentedTweets);
    ghost var all := st.filteredTweets;
    var i := 0;
    while i < |top|
      invariant 0 <= i <= |top|
      invariant st.filteredTweets == all
      invariant forall t :: t in top[..i] ==>
        && t.comments == CommentsAfter(old(t.comments), FetchComments(t.rec.conversationId, client))
        && t.commentCount == CountAfter(old(t.commentCount), FetchComments(t.rec.conversationId, client))
      invariant forall t :: t in all && t !in top[..i] ==>
        t.comments == old(t.comments) && t.commentCount == old(t.commentCount)
    {
      var t := top[i];
      AfterIdempotent(old(t.comments), old(t.commentCount), FetchComments(t.rec.conversationId, client));
      FetchInto(t, client);
      assert top[..i + 1] == top[..i] + [t];
      i := i + 1;
    }
    assert top[..|top|] == top;
    st.filteredTweets := top;
  }
}
