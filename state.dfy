/** The state record every stage reads and updates in place, and the compiled deliverable. */
module State {
  import opened Wrappers
  import opened JsonValues
  import opened Constants
  import opened Records

  /** The `final_output` package. */
  datatype FinalOutput = FinalOutput(
    topic: string,
    generatedAt: string,
    config: TopicConfig,
    trendingHashtags: seq<string>,
    tweetsAnalyzed: nat,
    qualityTweets: nat,
    sentiment: map<string, Json>,
    competitorInsights: Json,
    factChecks: Json,
    scriptVariants: seq<ScriptVariant>,
    mediaSuggestions: seq<MediaSuggestion>,
    topTweets: seq<Tweet>,
    bestVariant: Option<string>,
    keyTalkingPoints: Json,
    uniqueAngles: Json)

  /** The agent state; the dict fields are typed by what the stages store in them. */
  class PipelineState {
    const topic: string
    const config: TopicConfig
    var error: Option<string>
    var trendingHashtags: seq<string>
    var rawTweets: seq<Tweet>
    var filteredTweets: seq<Tweet>
    var competitorAnalysis: Json
    var factCheckResults: Json
    var sentimentAnalysis: map<string, Json>
    var trendingTopics: Json
    var mediaSuggestions: seq<MediaSuggestion>
    var scriptVariants: seq<ScriptVariant>
    var finalOutput: Option<FinalOutput>

    /** No error, every list empty and every dict `{}`. */
    predicate IsInitial()
      reads this
    {
      error.None? && trendingHashtags == [] && rawTweets == [] && filteredTweets == []
      && competitorAnalysis == JObj(EmptyDict) && factCheckResults == EmptyList
      && sentimentAnalysis == EmptyDict && trendingTopics == EmptyList
      && mediaSuggestions == [] && scriptVariants == [] && finalOutput.None?
    }

    constructor (topic: string, config: TopicConfig)
      ensures this.topic == topic && this.config == config && IsInitial()
    {
      this.topic := topic;
      this.config := config;
      error := None;
      trendingHashtags := [];
      rawTweets := [];
      filteredTweets := [];
      competitorAnalysis := JObj(EmptyDict);
      factCheckResults := EmptyList;
      sentimentAnalysis := EmptyDict;
      trendingTopics := EmptyList;
      mediaSuggestions := [];
      scriptVariants := [];
      finalOutput := None;
    }
  }
}
