/**
 * Competitor analysis: fetch recent tweets of each competitor channel, collect one
 * topic per tweet, and let the LLM summarise the first twenty; a failure anywhere is
 * recorded in the stage's own result and never as the run's error.
 */
module Competitor {
  import opened Wrappers
  import opened Seqs
  import opened Text
  import opened JsonValues
  import opened Constants
  import opened Records
  import opened Services
  import opened State

  const ChannelPrefix: string := "from:"
  const ChannelSuffix: string := " -is:retweet"
  const MaxChannelTweets: nat := 10
  const MaxPromptTopics: nat := 20

  /** The search for one channel: the handle without any '@', no retweets, ten results. */
  function ChannelRequest(channel: string): SearchRequest {
    SearchRequest(ChannelPrefix + RemoveChar(channel, '@') + ChannelSuffix, MaxChannelTweets, ChannelFields)
  }

  /** A channel written with or without its leading '@' is searched the same way. */
  lemma ChannelHandleNormalised(channel: string)
    ensures ChannelRequest("@" + channel) == ChannelRequest(channel)
    ensures '@' !in ChannelRequest(channel).query[|ChannelPrefix|..|ChannelRequest(channel).query| - |ChannelSuffix|]
  {
    assert ("@" + channel)[1..] == channel;
    var q := ChannelRequest(channel).query;
    assert q[|ChannelPrefix|..|q| - |ChannelSuffix|] == RemoveChar(channel, '@');
  }

  /** A topic: the channel, the tweet's text, and likes plus retweets. */
  function TopicOf(channel: string, t: ApiTweet): CompetitorTopic {
    CompetitorTopic(channel, t.text, t.likes + t.retweets)
  }

  function ChannelTopics(channel: string, data: seq<ApiTweet>): (ts: seq<CompetitorTopic>)
    ensures |ts| == |data|
  {
    seq(|data|, i requires 0 <= i < |data| => TopicOf(channel, data[i]))
  }

  /** The topics of all channels in channel order, or the message of the first failed search. */
  function CollectTopics(channels: seq<string>, client: Client): Result<seq<CompetitorTopic>> {
    if channels == [] then Ok([])
    else
      match CollectTopics(channels[..|channels| - 1], client)
      case Err(m) => Err(m)
      case Ok(ts) =>
        var last := channels[|channels| - 1];
        match client(ChannelRequest(last))
        case Err(m) => Err(m)
        case Ok(resp) => Ok(ts + ChannelTopics(last, resp.data))
  }

  /** Collecting over two channel lists one after the other: the topics concatenate, the first failure wins. */
  lemma {:induction false} CollectAppend(a: seq<string>, b: seq<string>, client: Client)
    ensures CollectTopics(a + b, client) ==
      match CollectTopics(a, client)
      case Err(m) => Err(m)
      case Ok(ta) =>
        match CollectTopics(b, client)
        case Err(m) => Err(m)
        case Ok(tb) => Ok(ta + tb)
  {
    if b == [] {
      assert a + b == a;
      if CollectTopics(a, client).Ok? {
        assert CollectTopics(a, client).value + [] == CollectTopics(a, client).value;
      }
    } else {
      var init := b[..|b| - 1];
      CollectAppend(a, init, client);
      assert (a + b)[..|a + b| - 1] == a + init;
      assert (a + b)[|a + b| - 1] == b[|b| - 1];
      match CollectTopics(a, client)
      case Err(_) =>
      case Ok(ta) =>
        match CollectTopics(init, client)
        case Err(_) =>
        case Ok(ti) =>
          match client(ChannelRequest(b[|b| - 1]))
          case Err(_) =>
          case Ok(resp) =>
            assert ta + (ti + ChannelTopics(b[|b| - 1], resp.data)) == (ta + ti) + ChannelTopics(b[|b| - 1], resp.data);
    }
  }

  /** Every topic comes from a tweet its channel's search returned, with likes plus retweets as engagement. */
  lemma {:induction false} TopicsFromChannels(channels: seq<string>, client: Client, i: nat)
    requires CollectTopics(channels, client).Ok? && i < |CollectTopics(channels, client).value|
    ensures var topic := CollectTopics(channels, client).value[i];
      && topic.channel in channels
      && client(ChannelRequest(topic.channel)).Ok?
      && exists t :: t in client(ChannelRequest(topic.channel)).value.data
           && topic.text == t.text && topic.engagement == t.likes + t.retweets
  {
    var init := channels[..|channels| - 1];
    var last := channels[|channels| - 1];
    var ts := CollectTopics(init, client).value;
    var resp := client(ChannelRequest(last)).value;
    var all := CollectTopics(channels, client).value;
    assert all == ts + ChannelTopics(last, resp.data);
    if i < |ts| {
      TopicsFromChannels(init, client, i);
      assert all[i] == ts[i];
      assert forall c :: c in init ==> c in channels;
    } else {
      var k := i - |ts|;
      assert all[i] == TopicOf(last, resp.data[k]);
      assert resp.data[k] in resp.data;
    }
  }

  /** `{'common_themes': [], 'gaps': [], 'competitor_angles': []}`. */
  const DefaultAnalysis: Json :=
    JObj(map["common_themes" := EmptyList, "gaps" := EmptyList, "competitor_angles" := EmptyList])

  /** What the stage stores in `competitor_analysis`. */
  function CompetitorOutcome(channels: seq<string>, client: Client, llm: Llm, parse: JsonParser): Json {
    match CollectTopics(channels, client)
    case Err(m) => JObj(ErrorMarker(m))
    case Ok(topics) =>
      if topics == [] then DefaultAnalysis
      else
        match llm(CompetitorPrompt(Take(topics, MaxPromptTopics)))
        case Err(m) => JObj(ErrorMarker(m))
        case Ok(content) =>
          match parse(ExtractJsonText(content))
          case Err(m) => JObj(ErrorMarker(m))
          case Ok(j) => j
  }

  /** With no channels, or channels without tweets, the default record is stored whatever the LLM would say. */
  lemma NoTopicsNoLlm(channels: seq<string>, client: Client, llm1: Llm, parse1: JsonParser, llm2: Llm, parse2: JsonParser)
    requires channels == [] || CollectTopics(channels, client) == Ok([])
    ensures CompetitorOutcome(channels, client, llm1, parse1) == DefaultAnalysis
    ensures CompetitorOutcome(channels, client, llm2, parse2) == DefaultAnalysis
  {
  }

  /** Only the first twenty topics reach the LLM: topic lists that agree on them give the same result. */
  lemma OnlyFirstTwentyMatter(c1: seq<string>, client1: Client, c2: seq<string>, client2: Client, llm: Llm, parse: JsonParser)
    requires CollectTopics(c1, client1).Ok? && CollectTopics(c2, client2).Ok?
    requires CollectTopics(c1, client1).value != [] && CollectTopics(c2, client2).value != []
    requires Take(CollectTopics(c1, client1).value, MaxPromptTopics) == Take(CollectTopics(c2, client2).value, MaxPromptTopics)
    ensures CompetitorOutcome(c1, client1, llm, parse) == CompetitorOutcome(c2, client2, llm, parse)
  {
  }

  /** The inner loop: one topic per returned tweet, after the topics so far. */
  method AppendTopics(topics0: seq<CompetitorTopic>, channel: string, data: seq<ApiTweet>)
    returns (topics: seq<CompetitorTopic>)
    ensures topics == topics0 + ChannelTopics(channel, data)
  {
    topics := topics0;
    var k := 0;
    while k < |data|
      invariant 0 <= k <= |data| && |topics| == |topics0| + k
      invariant topics[..|topics0|] == topics0
      invariant forall j :: 0 <= j < k ==> topics[|topics0| + j] == TopicOf(channel, data[j])
    {
      topics := topics + [TopicOf(channel, data[k])];
      k := k + 1;
    }
  }

  /**
   * analyze_competitors. With an error set nothing happens; otherwise only
   * `competitor_analysis` is written, with the LLM's parsed reply, the default record,
   * or `{'error': message}`.
   */
  method AnalyzeCompetitors(st: PipelineState, client: Client, llm: Llm, parse: JsonParser)
    modifies st`competitorAnalysis
    ensures old(st.error).Some? ==> unchanged(st)
    ensures old(st.error).None? ==>
      st.competitorAnalysis == CompetitorOutcome(st.config.competitorChannels, client, llm, parse)
  {
    if st.error.Some? {
      return;
    }
    var channels := st.config.competitorChannels;
    var topics: seq<CompetitorTopic> := [];
    var i := 0;
    while i < |channels|
      invariant 0 <= i <= |channels|
      invariant CollectTopics(channels[..i], client) == Ok(topics)
    {
      var channel := channels[i];
      var tweets := client(ChannelRequest(channel));
      assert channels[..i + 1][..i] == channels[..i];
      if tweets.Err? {
        assert CollectTopics(channels[..i + 1], client) == Err(tweets.msg);
        CollectAppend(channels[..i + 1], channels[i + 1..], client);
        assert channels[..i + 1] + channels[i + 1..] == channels;
        st.competitorAnalysis := JObj(ErrorMarker(tweets.msg));
        return;
      }
      topics := AppendTopics(topics, channel, tweets.value.data);
      i := i + 1;
    }
    assert channels[..|channels|] == channels;
    if topics != [] {
      var response := llm(CompetitorPrompt(Take(topics, MaxPromptTopics)));
      if response.Err? {
        st.competitorAnalysis := JObj(ErrorMarker(response.msg));
        return;
      }
      var parsed := parse(ExtractJsonText(response.value));
      if parsed.Err? {
        st.competitorAnalysis := JObj(ErrorMarker(parsed.msg));
        return;
      }
      st.competitorAnalysis := parsed.value;
    } else {
      st.competitorAnalysis := DefaultAnalysis;
    }
  }
}
