/**
 * The two external services as oracles: the Twitter recent-search endpoint and the
 * LLM, together with `json.loads`. Each returns a value or the message of the
 * exception it raised.
 */
module Services {
  import opened Wrappers
  import opened JsonValues
  import opened Constants
  import opened Records

  datatype ApiUser = ApiUser(id: nat, username: string, verified: bool, followers: nat, profileImageUrl: Option<string>)

  datatype ApiMedia = ApiMedia(mediaKey: string, kind: string, url: Option<string>, previewImageUrl: Option<string>)

  /** A tweet as the search endpoint returns it; an absent entity list is empty. */
  datatype ApiTweet = ApiTweet(
    id: nat,
    text: string,
    createdAt: string,
    authorId: nat,
    conversationId: nat,
    likes: nat,
    retweets: nat,
    replies: nat,
    quotes: nat,
    hashtags: seq<string>,
    expandedUrls: seq<string>,
    mediaKeys: seq<string>)

  /** `data` is empty when the response has no data; `users` and `media` are the includes. */
  datatype SearchResponse = SearchResponse(data: seq<ApiTweet>, users: seq<ApiUser>, media: seq<ApiMedia>)

  /**
   * The fields and expansions a search asks for. Each call site asks for its own set, so
   * two searches with the same query string are still different requests.
   */
  datatype FieldSet =
    | DiscoveryFields     // entities and public metrics
    | ScrapeFields        // metrics, dates, authors, conversations, entities, users and media
    | ConversationFields  // metrics, dates, authors and the users' names
    | ChannelFields       // metrics and dates

  datatype SearchRequest = SearchRequest(query: string, maxResults: nat, fields: FieldSet)

  type Client = SearchRequest -> Result<SearchResponse>

  /** What the pieces of each prompt carry (the wording around them is not modelled). */
  datatype CompetitorTopic = CompetitorTopic(channel: string, text: string, engagement: nat)

  datatype Claim = Claim(tweetId: nat, text: string, author: string, engagement: nat)

  datatype TweetSummary = TweetSummary(
    text: string,
    engagement: nat,
    qualityScore: real,
    author: string,
    verified: bool,
    topComments: seq<string>,
    factCheck: Json)

  datatype TopTweet = TopTweet(author: string, text: string, engagement: nat)

  datatype ScriptContext = ScriptContext(
    topic: string,
    tone: string,
    videoLength: string,
    hashtags: seq<string>,
    sentiment: Json,
    trendingTopics: seq<string>,
    viralMoments: seq<string>,
    uniqueAngles: seq<string>,
    topTweets: seq<TopTweet>,
    media: seq<MediaSuggestion>)

  datatype Prompt =
    | CompetitorPrompt(topics: seq<CompetitorTopic>)
    | FactCheckPrompt(claims: seq<Claim>)
    | SentimentPrompt(tweets: seq<TweetSummary>, competitor: Json, hashtags: seq<string>)
    | ScriptPrompt(context: ScriptContext, variant: VariantTemplate, minWords: int, maxWords: int)

  /** The LLM: the reply's content, or the message of the exception. */
  type Llm = Prompt -> Result<string>

  /** `json.loads`: the decoded value, or the message of the decode error. */
  type JsonParser = string -> Result<Json>
}
