/**
 * Sentiment analysis: summarise the first twenty quality tweets, ask the LLM about
 * them together with the competitor analysis and the first ten hashtags, and store
 * the parsed dict and its trending topics, or `{'error': message}`.
 */
module Sentiment {
  import opened Wrappers
  import opened Seqs
  import opened Sorting
  import opened JsonValues
  import opened Constants
  import opened Records
  import opened Services
  import opened State
  import opened Filters

  const MaxSummaryTweets: nat := 20
  const MaxTopComments: nat := 5
  const MaxPromptHashtags: nat := 10
  const TrendingTopicsKey: string := "trending_topics"

  function CommentText(c: Comment): string {
    c.text
  }

  /** `[c['text'] for c in tweet.get('comments', [])[:5]]`. */
  function TopComments(cs: Option<seq<Comment>>): (r: seq<string>)
    ensures cs.None? ==> r == []
    ensures cs.Some? ==>
      && |r| == Min(MaxTopComments, |cs.value|)
      && forall i :: 0 <= i < |r| ==> r[i] == cs.value[i].text
  {
    MapSeq(Take(cs.GetOr([]), MaxTopComments), CommentText)
  }

  /** Every summarised tweet carries a quality score: `tweet['quality_score']` raises KeyError otherwise. */
  predicate Scored(ts: seq<Tweet>)
    reads set t | t in ts
  {
    forall i :: 0 <= i < |ts| ==> ts[i].qualityScore.Some?
  }

  /** The summary dict of one tweet; a missing `fact_check` reads as `{}`. */
  function SummaryOf(t: Tweet): TweetSummary
    requires t.qualityScore.Some?
    reads t
  {
    TweetSummary(t.rec.text, t.rec.totalEngagement, t.qualityScore.value, t.rec.authorUsername,
      t.rec.authorVerified, TopComments(t.comments), t.factCheck.GetOr(JObj(EmptyDict)))
  }

  /** `tweets_summary` for the given tweets. */
  function Summaries(ts: seq<Tweet>): (r: seq<TweetSummary>)
    requires Scored(ts)
    reads set t | t in ts
    ensures |r| == |ts|
  {
    if ts == [] then []
    else
      var init := ts[..|ts| - 1];
      assert forall i :: 0 <= i < |init| ==> init[i] == ts[i];
      Summaries(init) + [SummaryOf(ts[|ts| - 1])]
  }

  /** The i-th summary describes the i-th tweet: its text, engagement, score, author, first comments and verdict. */
  lemma {:induction false} SummariesDescribe(ts: seq<Tweet>, i: nat)
    requires Scored(ts) && i < |ts|
    ensures var s := Summaries(ts)[i];
      && s.text == ts[i].rec.text && s.engagement == ts[i].rec.totalEngagement
      && s.qualityScore == ts[i].qualityScore.value && s.author == ts[i].rec.authorUsername
      && s.verified == ts[i].rec.authorVerified && s.topComments == TopComments(ts[i].comments)
      && s.factCheck == ts[i].factCheck.GetOr(JObj(EmptyDict))
  {
    if i < |ts| - 1 {
      var init := ts[..|ts| - 1];
      assert forall k :: 0 <= k < |init| ==> init[k] == ts[k];
      SummariesDescribe(init, i);
    }
  }

  /** After the quality filter scored every raw tweet, the summarised tweets all have a score. */
  lemma FilteredAreScored(raw: seq<Tweet>, cfg: TopicConfig)
    requires forall t :: t in raw ==> t.qualityScore.Some?
    ensures Scored(Take(QualityTweets(raw, cfg), MaxSummaryTweets))
  {
    QualityTweetsMembers(raw, cfg);
  }

  /** The prompt's inputs: the summaries, the competitor analysis and the first ten hashtags. */
  function PromptOf(summaries: seq<TweetSummary>, competitor: Json, hashtags: seq<string>): Prompt {
    SentimentPrompt(summaries, competitor, Take(hashtags, MaxPromptHashtags))
  }

  /**
   * What the `try` block leaves as (`sentiment_analysis`, `trending_topics`): a parsed
   * dict and its "trending_topics" (default []); on an LLM or parse failure, or a reply
   * that is not a dict (whose `.get` raises), the error marker and the topics as before.
   */
  function SentimentOutcome(p: Prompt, llm: Llm, parse: JsonParser, topics0: Json): (map<string, Json>, Json) {
    match llm(p)
    case Err(m) => (ErrorMarker(m), topics0)
    case Ok(content) =>
      match parse(ExtractJsonText(content))
      case Err(m) => (ErrorMarker(m), topics0)
      case Ok(j) =>
        if j.JObj? then (j.fields, Get(j.fields, TrendingTopicsKey, EmptyList))
        else (ErrorMarker(NoGetMessage(j)), topics0)
  }

  /**
   * Either the analysis is the dict the LLM's reply parsed to and the topics are its
   * "trending_topics", or the analysis is an error marker and the topics stay as they were.
   */
  lemma SentimentParsedOrMarked(p: Prompt, llm: Llm, parse: JsonParser, topics0: Json)
    ensures var r := SentimentOutcome(p, llm, parse, topics0);
      || (&& llm(p).Ok? && parse(ExtractJsonText(llm(p).value)) == Ok(JObj(r.0))
          && r.1 == Get(r.0, TrendingTopicsKey, EmptyList))
      || (exists m :: r.0 == ErrorMarker(m) && r.1 == topics0)
  {
    var r := SentimentOutcome(p, llm, parse, topics0);
    match llm(p)
    case Err(m) => assert r.0 == ErrorMarker(m);
    case Ok(content) =>
      match parse(ExtractJsonText(content))
      case Err(m) => assert r.0 == ErrorMarker(m);
      case Ok(j) =>
        if !j.JObj? {
          assert r.0 == ErrorMarker(NoGetMessage(j));
        }
  }

  /** A reply that parses to a dict is stored as it is, whatever else the LLM could have said. */
  lemma ParsedDictStored(p: Prompt, llm: Llm, parse: JsonParser, topics0: Json, f: map<string, Json>)
    requires llm(p).Ok? && parse(ExtractJsonText(llm(p).value)) == Ok(JObj(f))
    ensures SentimentOutcome(p, llm, parse, topics0) == (f, Get(f, TrendingTopicsKey, EmptyList))
  {
  }

  /** The summary loop: `None` at the first tweet without a quality score (the KeyError). */
  method BuildSummaries(ts: seq<Tweet>) returns (r: Option<seq<TweetSummary>>)
    ensures r.Some? <==> Scored(ts)
    ensures r.Some? ==> r.value == Summaries(ts)
  {
    var summaries: seq<TweetSummary> := [];
    var i := 0;
    while i < |ts|
      invariant 0 <= i <= |ts|
      invariant Scored(ts[..i]) && summaries == Summaries(ts[..i])
    {
      var tweet := ts[i];
      if tweet.qualityScore.None? {
        assert !Scored(ts) by {
          assert ts[i].qualityScore.None?;
        }
        return None;
      }
      ghost var next := ts[..i + 1];
      assert next[..i] == ts[..i];
      assert Scored(next) by {
        forall k | 0 <= k < |next| ensures next[k].qualityScore.Some? {
          if k < i {
            assert next[k] == ts[..i][k];
          }
        }
      }
      summaries := summaries + [SummaryOf(tweet)];
      i := i + 1;
    }
    assert ts[..|ts|] == ts;
    return Some(summaries);
  }

  /**
   * analyze_sentiment_advanced. With an error set or no quality tweets nothing happens.
   * Otherwise the summary loop, which runs outside the `try`, raises KeyError on a tweet
   * without a score; when it does not, only `sentiment_analysis` and `trending_topics`
   * are written, as SentimentOutcome says.
   */
  method AnalyzeSentiment(st: PipelineState, llm: Llm, parse: JsonParser) returns (escape: Option<Uncaught>)
    modifies st`sentimentAnalysis, st`trendingTopics
    ensures old(st.error).Some? || old(st.filteredTweets) == [] ==> unchanged(st) && escape.None?
    ensures old(st.error).None? && old(st.filteredTweets) != [] && !Scored(Take(st.filteredTweets, MaxSummaryTweets)) ==>
      escape == Some(KeyError) && unchanged(st)
    ensures old(st.error).None? && old(st.filteredTweets) != [] && Scored(Take(st.filteredTweets, MaxSummaryTweets)) ==>
      && escape.None?
      && (st.sentimentAnalysis, st.trendingTopics) == SentimentOutcome(
           PromptOf(Summaries(Take(st.filteredTweets, MaxSummaryTweets)), st.competitorAnalysis, st.trendingHashtags),
           llm, parse, old(st.trendingTopics))
  {
    if st.error.Some? || st.filteredTweets == [] {
      return None;
    }
    var summaries := BuildSummaries(Take(st.filteredTweets, MaxSummaryTweets));
    if summaries.None? {
      return Some(KeyError);
    }
    StoreAnalysis(st, PromptOf(summaries.value, st.competitorAnalysis, st.trendingHashtags), llm, parse);
    return None;
  }

  /** The `try` block: one LLM call, then the parsed dict and its topics or the error marker. */
  method StoreAnalysis(st: PipelineState, prompt: Prompt, llm: Llm, parse: JsonParser)
    modifies st`sentimentAnalysis, st`trendingTopics
    ensures (st.sentimentAnalysis, st.trendingTopics) == SentimentOutcome(prompt, llm, parse, old(st.trendingTopics))
  {
    var response := llm(prompt);
    if response.Err? {
      st.sentimentAnalysis := ErrorMarker(response.msg);
      return;
    }
    var analysis := parse(ExtractJsonText(response.value));
    if analysis.Err? {
      st.sentimentAnalysis := ErrorMarker(analysis.msg);
      return;
    }
    if analysis.value.JObj? {
      st.sentimentAnalysis := analysis.value.fields;
      st.trendingTopics := Get(analysis.value.fields, TrendingTopicsKey, EmptyList);
    } else {
      st.sentimentAnalysis := ErrorMarker(NoGetMessage(analysis.value));
    }
  }
}
