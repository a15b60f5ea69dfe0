# YouTube script generator: a verified model of the pipeline

The system turns a topic ("nfl", "nba", "tech", "politics") into YouTube script drafts. It runs
one fixed chain of eleven stages over a shared state record:

1. `discover_hashtags` counts the hashtags of a day of tweets.
2. `scrape_tweets` searches with the base query and the top hashtags, and builds one record per tweet.
3. `filter_tweets` scores every tweet and keeps the best fifty that pass six quality tests.
4. `analyze_competitors` asks an LLM what competitor channels cover.
5. `scrape_comments` fetches the replies of the top fifteen tweets.
6. `fact_check` sends the claims among the top ten tweets to the LLM and attaches its verdicts by tweet id.
7. `analyze_sentiment` asks the LLM for an analysis of the top twenty tweets.
8. `generate_media` suggests screenshots and B-roll clips.
9. `generate_scripts` asks the LLM for three script variants.
10. `compile_output` builds the deliverable package.
11. `save_files` writes the scripts.

Only the first two stages can record `error`. Every stage returns at once when `error` is set.
An enrichment stage (4 to 7) records its own failure in its own field.
An exception raised outside a stage's `try` ends the run.
The executor merges the caller's overrides over the topic preset and runs the chain.
It returns None when the run ends with an error.
It also registers scheduled runs by each topic's schedule day.

How the model is built:

- One module per source file.
  - `constants.dfy` holds the topic presets and variant templates.
  - `filters.dfy`, `hashtags.dfy`, `twitter.dfy`, `comments.dfy`, `competitor.dfy`, `factcheck.dfy`, `sentiment.dfy`, `media.dfy`, `scripts.dfy` and `filemanager.dfy` hold one stage each.
  - `workflow.dfy` holds the graph and the run; `executor.dfy` holds overrides, outcome and scheduling.
  - `records.dfy` and `state.dfy` hold the tweet and state records; `services.dfy` the external services.
  - `json.dfy`, `text.dfy`, `seqs.dfy` and `sorting.dfy` model the Python built-ins the stages rely on: dict `get`, slicing, `str.split`, `join`, `strip`, `lower`, `int()`, and the stable `sorted`.
- The pipeline state is a class, `State.PipelineState`.
  - Each tweet is a `Records.Tweet` object: its scraped record is a constant, and the fields later stages write into it in place (`quality_score`, `comments`, `comment_count`, `fact_check`) are mutable.
  - So `filtered_tweets` and `raw_tweets` share tweets by reference, as the Python dicts do.
  - Each stage is a method whose `modifies` clause names exactly the fields it writes. Its contract ties the new state to a specification function of the old one.
- The external services are function-valued parameters:
  - the Twitter search client returns a response or the message of its exception;
  - the LLM returns the reply content or the message;
  - `json.loads` returns a value or the message.
- An exception that escapes a stage is an `Outcome` value (`Raises(KeyError)` and so on).
  - A stage method returns it as `escape`, with the state untouched.
  - The run stops at it, as `invoke` would.
- Scores and ratios are real numbers.
  - The filter sorts by twice the quality score, which is always an integer; `Filters.DoubledScoreOrder` shows that this orders the tweets as the score does.
  - `sorted(..., reverse=True)` is a stable insertion sort on integer keys.
- The graph is a class recording the nodes, the edges and the entry point. The run is a loop over the stage list in chain order.
  - Nodes that take no client or LLM in the source (`filter_tweets`, `generate_media`, `compile_output`, `save_files`) take none in the model either.

The model follows the code wherever the code is more specific than its documentation:

- `fact_check_results` keeps the parsed reply even when building the verdict map fails afterwards.
- A sentiment reply that parses to something other than a dict ends as the error marker: `.get` on it raises inside the `try`.
- The word range is computed outside the `try`, so a malformed `video_length` escapes `generate_scripts`.
- A tweet without a quality score makes `analyze_sentiment` and `generate_media` raise KeyError.
  - After the filter, every tweet has a score (`Sentiment.FilteredAreScored`), so this cannot happen in a run.

## Model

| member | source | states |
|---|---|---|
| Constants.VariantOrder | src/youtube_script_agent/core/constants.py:50-76 | five templates in a fixed order, the first three Hook-Heavy, Story-Driven, Analytical, no name repeated |
| Constants.LengthBoundsOfNumerals | src/youtube_script_agent/generators/scripts.py:73 | a length written "lo-hi" in decimal numerals splits at '-' and reads back as (lo, hi) |
| Constants.PresetLengthsWellFormed | src/youtube_script_agent/core/constants.py:11-41 | every preset's video length is "lo-hi" with decimal numerals and lo < hi |
| Constants.PresetSchedulesAndThresholds | src/youtube_script_agent/core/constants.py:9-44 | every preset is scheduled "monday" or "daily" and has positive engagement and follower thresholds |
| Filters.QualityScore | src/youtube_script_agent/utils/filters.py:45-52 | likes + 2·retweets + 1.5·replies + 3·quotes, plus 100 for a verified author, as a real number |
| Filters.MeetsEngagement | src/youtube_script_agent/utils/filters.py:29 | total engagement at least the preset engagement threshold |
| Filters.GoodRatio | src/youtube_script_agent/utils/filters.py:30 | engagement ratio at least 0.001 |
| Filters.MeaningfulLikes | src/youtube_script_agent/utils/filters.py:31 | likes at least 0.4 times the engagement threshold, compared as reals |
| Filters.ReasonableRetweets | src/youtube_script_agent/utils/filters.py:34 | retweets at most twice the likes |
| Filters.NotSpam | src/youtube_script_agent/utils/filters.py:35 | replies at most 0.8 times the total engagement, compared as reals |
| Filters.Reputable | src/youtube_script_agent/utils/filters.py:38-42 | a verified author, or followers at least the follower threshold, or engagement at least four times the engagement threshold |
| Filters.Admitted | src/youtube_script_agent/utils/filters.py:54-56 | the conjunction of the six tests |
| Filters.DoubledScoreOrder | src/youtube_script_agent/utils/filters.py:45-51 | the integer sort key is twice the real quality score, so it orders and ties tweets exactly as the score does |
| Filters.NamedConstantsAgree | src/youtube_script_agent/core/constants.py:79-81 | the ratio, spam and retweet tests use exactly the values of MIN_ENGAGEMENT_RATIO, SPAM_REPLY_THRESHOLD and BOT_RT_MULTIPLIER |
| Filters.RatioCrossMultiplied | src/youtube_script_agent/utils/filters.py:30 | for a ratio total / max(followers, 1), the 0.001 test is the integer test 1000·total ≥ max(followers, 1) |
| Filters.ThresholdMonotone | src/youtube_script_agent/utils/filters.py:29-42 | a tweet admitted under a higher engagement threshold is admitted under the lower one |
| Filters.AdmittedShrinks | src/youtube_script_agent/utils/filters.py:29-56 | raising the threshold only removes tweets from the admitted list |
| Filters.QualityTweetsMembers | src/youtube_script_agent/utils/filters.py:54-59 | the result has min(50, admitted) tweets, each an admitted raw tweet, and holds every admitted tweet when there are at most 50 |
| Filters.QualityTweetsOrdered | src/youtube_script_agent/utils/filters.py:59 | quality scores never increase along the result |
| Filters.QualityTweetsTies | src/youtube_script_agent/utils/filters.py:59 | two results with equal scores come from raw positions in the same order (stable sort) |
| Filters.QualityTweetsAreTheBest | src/youtube_script_agent/utils/filters.py:59 | an admitted tweet cut by the cap scores no higher than every kept one |
| Filters.FilterQualityTweets | src/youtube_script_agent/utils/filters.py:9-62 | with an error nothing changes; otherwise every raw tweet, admitted or not, gets its quality score and `filtered_tweets` becomes the sorted, capped admitted list |
| Hashtags.RankedTags | src/youtube_script_agent/scrapers/hashtags.py:48 | the distinct tags stably sorted by their count, most frequent first, ties in first-seen (dict insertion) order |
| Hashtags.HashtagOutcome | src/youtube_script_agent/scrapers/hashtags.py:31-55 | the trending list of the discovery search, or the message of the client's exception |
| Hashtags.TagOccurrences | src/youtube_script_agent/scrapers/hashtags.py:40-44 | the lower-cased tags of all tweets with hashtag entities, tweet by tweet and in entity order |
| Hashtags.AddHash | src/youtube_script_agent/scrapers/hashtags.py:49 | "#" followed by the tag |
| Hashtags.TrendingShape | src/youtube_script_agent/scrapers/hashtags.py:48-49 | at most ten entries, each "#" and a lower-cased tag that occurs, none repeated |
| Hashtags.TrendingOrdered | src/youtube_script_agent/scrapers/hashtags.py:48 | counts never increase along the list |
| Hashtags.TrendingTies | src/youtube_script_agent/scrapers/hashtags.py:45-48 | tags with equal counts keep the order in which they were first seen |
| Hashtags.TrendingAreTheMostFrequent | src/youtube_script_agent/scrapers/hashtags.py:48-49 | a tag that occurs but is not listed is no more frequent than any listed tag |
| Hashtags.NoTagsNoTrending | src/youtube_script_agent/scrapers/hashtags.py:39-49 | no data, or no hashtag entities, gives an empty list |
| Hashtags.TagCountsAreCounts | src/youtube_script_agent/scrapers/hashtags.py:39-45 | the dict maps exactly the tags that occur, each to its number of occurrences, so "NFL" and "nfl" count together |
| Hashtags.CountTweetTags | src/youtube_script_agent/scrapers/hashtags.py:43-45 | the inner loop leaves the dict and its key order as counting that tweet's tags gives |
| Hashtags.CountTags | src/youtube_script_agent/scrapers/hashtags.py:39-45 | the counting loop yields the counts of all occurrences and the keys in first-seen order |
| Hashtags.DiscoverHashtags | src/youtube_script_agent/scrapers/hashtags.py:11-57 | on a response the top ten tags and the error untouched; on any exception error "Error discovering hashtags: …" and an empty list; nothing else changes |
| Twitter.ScrapeQuery | src/youtube_script_agent/scrapers/twitter.py:33-38 | "(base OR h1 OR … OR h5) -is:retweet lang:en" with the first five hashtags, or "base -is:retweet lang:en" when there are none |
| Twitter.RecordOf | src/youtube_script_agent/scrapers/twitter.py:60-99 | the record of one returned tweet, its author looked up among the included users and its media among the included media |
| Twitter.ScrapeOutcome | src/youtube_script_agent/scrapers/twitter.py:40-105 | the exception's message, "no tweets" for an empty response, or the records sorted by total engagement |
| Twitter.QueryWithoutHashtags | src/youtube_script_agent/scrapers/twitter.py:37-48 | without trending hashtags the query string is the hashtag stage's "base -is:retweet lang:en", but the request differs from that stage's because it asks for other fields |
| Twitter.QueryUsesFirstFive | src/youtube_script_agent/scrapers/twitter.py:34-36 | hashtags after the fifth do not change the query |
| Twitter.QueryHashtagsRecoverable | src/youtube_script_agent/scrapers/twitter.py:34-36 | with hashtags, the query is "(base OR …) -is:retweet lang:en" and its hashtag part splits on " OR " back into exactly the first min(5, k) hashtags |
| Twitter.MediaUrl | src/youtube_script_agent/scrapers/twitter.py:73 | the url when it is present and non-empty, the preview url otherwise |
| Twitter.MediaEntriesFromKeys | src/youtube_script_agent/scrapers/twitter.py:67-74 | every media entry describes the medium of one of the tweet's keys present in the media map, in key order |
| Twitter.MediaEntriesNone | src/youtube_script_agent/scrapers/twitter.py:69 | a tweet none of whose keys is in the media map gets no media entries |
| Twitter.MediaEntriesAll | src/youtube_script_agent/scrapers/twitter.py:67-74 | when every key is in the media map, entry i describes the medium of key i |
| Twitter.MediaUrls | src/youtube_script_agent/scrapers/twitter.py:66-74 | the inner loop yields the entries for exactly the attached keys found in the media map |
| Twitter.BuildRecord | src/youtube_script_agent/scrapers/twitter.py:61-99 | total engagement is likes + retweets + replies (no quotes); a known author gives ratio total / max(followers, 1) and a status link; an unknown one gives "unknown", unverified, 0 followers, no image, ratio 0, no link |
| Twitter.AuthorIsIncludedUser | src/youtube_script_agent/scrapers/twitter.py:54-61 | a tweet's author is found exactly when an included user has its author id, and is that user |
| Twitter.ScrapedSortedPermutation | src/youtube_script_agent/scrapers/twitter.py:101 | `raw_tweets` is a permutation of the response's records, non-increasing in total engagement, with ties in response order |
| Twitter.BuildTweets | src/youtube_script_agent/scrapers/twitter.py:59-99 | one new, distinct tweet object per returned tweet, in response order, holding that tweet's record and no enrichment |
| Twitter.SortedTweets | src/youtube_script_agent/scrapers/twitter.py:101 | sorting the tweet objects by engagement orders their records as sorting the records does |
| Twitter.ScrapeTweets | src/youtube_script_agent/scrapers/twitter.py:11-107 | with an error set nothing changes; a failed search sets "Error scraping tweets: …" and an empty one "No tweets found", leaving `raw_tweets` alone; otherwise `raw_tweets` holds the scraped records in engagement order |
| Comments.KeptComments | src/youtube_script_agent/scrapers/comments.py:38-46 | the replies as comments, stably sorted by likes, most liked first, cut to thirty |
| Comments.FetchComments | src/youtube_script_agent/scrapers/comments.py:30-51 | a failed search, a search with no data, or the kept comments and the number of replies |
| Comments.AfterIdempotent | src/youtube_script_agent/scrapers/comments.py:37-51 | writing one fetch's outcome into a tweet twice leaves what writing it once does |
| Comments.RepliesShape | src/youtube_script_agent/scrapers/comments.py:37-47 | when a fetch returns n replies the tweet keeps exactly min(30, n) comments, non-increasing in likes, a sub-multiset of the fetched replies, and the count is n |
| Comments.KeptAreMostLiked | src/youtube_script_agent/scrapers/comments.py:46 | every kept comment has at least as many likes as any fetched reply that was cut |
| Comments.CollectComments | src/youtube_script_agent/scrapers/comments.py:38-44 | one comment per conversation tweet, in response order |
| Comments.FetchInto | src/youtube_script_agent/scrapers/comments.py:29-51 | a failed fetch writes [] and 0, a fetch without data writes nothing, a fetch with data writes the kept comments and the count |
| Comments.ScrapeComments | src/youtube_script_agent/scrapers/comments.py:10-56 | with an error or no quality tweets nothing changes; otherwise each of the first fifteen tweets carries its fetch's outcome, the others are untouched, `filtered_tweets` becomes the first min(15, n) in order, and `error` is not written |
| Competitor.CollectTopics | src/youtube_script_agent/analyzers/competitor.py:33-50 | the topics of every channel in channel order, or the message of the first search that raises |
| Competitor.CompetitorOutcome | src/youtube_script_agent/analyzers/competitor.py:32-78 | the error marker for a failed search, LLM call or parse; the default record without topics; otherwise the parsed reply, whatever its type |
| Competitor.ChannelHandleNormalised | src/youtube_script_agent/analyzers/competitor.py:37 | the query is "from:" + the handle without any '@' + " -is:retweet", so a leading '@' makes no difference |
| Competitor.CollectAppend | src/youtube_script_agent/analyzers/competitor.py:36-50 | collecting over two channel lists in turn concatenates their topics, and the first failed search ends the collection |
| Competitor.TopicsFromChannels | src/youtube_script_agent/analyzers/competitor.py:44-50 | every topic carries a listed channel, the text of a tweet that channel's search returned, and likes + retweets as engagement |
| Competitor.NoTopicsNoLlm | src/youtube_script_agent/analyzers/competitor.py:53-74 | with no channels or no topics the default record is stored, whatever the LLM and parser would do |
| Competitor.OnlyFirstTwentyMatter | src/youtube_script_agent/analyzers/competitor.py:56 | topic lists that agree on their first twenty give the same analysis |
| Competitor.AppendTopics | src/youtube_script_agent/analyzers/competitor.py:45-50 | the inner loop appends one topic per returned tweet, in order |
| Competitor.AnalyzeCompetitors | src/youtube_script_agent/analyzers/competitor.py:12-80 | with an error nothing changes; otherwise only `competitor_analysis` is written: the parsed reply, the default record, or `{'error': message}`; `error` is never written |
| FactCheck.NeedsCheck | src/youtube_script_agent/analyzers/fact_checker.py:33-34 | the lower-cased text contains one of the seven indicators |
| FactCheck.KeyMatches | src/youtube_script_agent/analyzers/fact_checker.py:69 | Python `==` between an integer tweet id and a parsed key: ints, floats and bools compare by value, other values never match |
| FactCheck.VerdictPairs | src/youtube_script_agent/analyzers/fact_checker.py:67 | the dict comprehension's (key, verdict) pairs for a list of dicts with hashable "tweet_id"; an empty dict or string gives none; any other value raises |
| FactCheck.ClaimsExactly | src/youtube_script_agent/analyzers/fact_checker.py:31-40 | each claim comes from a tweet whose lower-cased text holds one of the seven indicators, and every such tweet gives its claim |
| FactCheck.ClaimsInOrder | src/youtube_script_agent/analyzers/fact_checker.py:31-40 | claims keep the order of their tweets |
| FactCheck.ClaimsStep | src/youtube_script_agent/analyzers/fact_checker.py:33-40 | one more tweet adds its claim exactly when it holds an indicator |
| FactCheck.CollectClaims | src/youtube_script_agent/analyzers/fact_checker.py:30-40 | the loop collects the claims of the given tweets, in order |
| FactCheck.VerdictFor | src/youtube_script_agent/analyzers/fact_checker.py:67-70 | a tweet id has a verdict exactly when some result's `tweet_id` equals it |
| FactCheck.VerdictLastWins | src/youtube_script_agent/analyzers/fact_checker.py:67 | with duplicate ids the last matching result is the verdict |
| FactCheck.NoVerdictsWithoutParse | src/youtube_script_agent/analyzers/fact_checker.py:42-77 | without claims, or when the LLM call or the parse fails, the results are [] and no tweet's `fact_check` changes |
| FactCheck.NoClaimsNoLlm | src/youtube_script_agent/analyzers/fact_checker.py:44 | with no claims the LLM is not consulted |
| FactCheck.OnlyFirstFiveMatter | src/youtube_script_agent/analyzers/fact_checker.py:47 | claim lists that agree on their first five fare the same |
| FactCheck.AttachVerdicts | src/youtube_script_agent/analyzers/fact_checker.py:68-70 | every listed tweet gains the verdict for its id when there is one and keeps its `fact_check` otherwise |
| FactCheck.FactCheckClaims | src/youtube_script_agent/analyzers/fact_checker.py:11-78 | with an error or no quality tweets nothing changes; otherwise `fact_check_results` is the parsed reply or [], every quality tweet (not only the top ten) gains its verdict when the map could be built, and `error` is not written |
| Sentiment.SentimentOutcome | src/youtube_script_agent/analyzers/sentiment.py:64-78 | a parsed dict and its "trending_topics" (default []); the error marker with the topics unchanged for a failed call, a failed parse or a reply that is not a dict |
| Sentiment.TopComments | src/youtube_script_agent/analyzers/sentiment.py:35 | the texts of the first five comments, or none when the tweet has no `comments` |
| Sentiment.SummariesDescribe | src/youtube_script_agent/analyzers/sentiment.py:28-37 | summary i has tweet i's text, engagement, score, author, verification, first comment texts and verdict ({} when absent) |
| Sentiment.FilteredAreScored | src/youtube_script_agent/utils/filters.py:52 | after the quality filter every summarised tweet has a score, so the summary loop cannot raise |
| Sentiment.SentimentParsedOrMarked | src/youtube_script_agent/analyzers/sentiment.py:64-78 | either the analysis is the dict the reply parsed to and the topics are its "trending_topics" (default []), or the analysis is `{'error': message}` and the topics are unchanged |
| Sentiment.ParsedDictStored | src/youtube_script_agent/analyzers/sentiment.py:71-73 | a reply parsing to a dict is stored as it is |
| Sentiment.BuildSummaries | src/youtube_script_agent/analyzers/sentiment.py:27-37 | the loop yields the summaries exactly when every tweet has a score, and stops with KeyError otherwise |
| Sentiment.StoreAnalysis | src/youtube_script_agent/analyzers/sentiment.py:64-78 | the `try` block writes `sentiment_analysis` and `trending_topics` as the outcome says |
| Sentiment.AnalyzeSentiment | src/youtube_script_agent/analyzers/sentiment.py:11-80 | with an error or no quality tweets nothing changes; an unscored tweet among the first twenty raises KeyError out of the stage; otherwise only the analysis and the topics are written; `error` is never written |
| Media.MediaOutcome | src/youtube_script_agent/generators/media.py:24-58 | KeyError where one of the first ten tweets has neither media nor a score, TypeError where the viral moments cannot be sliced, otherwise the shots and then the clips |
| Media.Trunc | src/youtube_script_agent/generators/media.py:42 | `int(x)` truncates toward zero |
| Media.ShotTimestampsDistinct | src/youtube_script_agent/generators/media.py:31 | screenshots at different positions get different "[{60·i}s]" timestamps |
| Media.ShotOf | src/youtube_script_agent/generators/media.py:28-43 | a tweet with media gives a `tweet_with_media` shot, one without gives a `tweet_screenshot` shot, each with its timestamp and link; a tweet with neither media nor a score raises KeyError |
| Media.ShotsExactly | src/youtube_script_agent/generators/media.py:27-43 | the screenshot loop raises exactly when some tweet has neither media nor a score; otherwise shot i is that of tweet i at position i + 1 |
| Media.ShotsPrefixNone | src/youtube_script_agent/generators/media.py:27-43 | once a prefix of the loop raises, the whole loop raises |
| Media.BuildShots | src/youtube_script_agent/generators/media.py:27-43 | the screenshot loop yields the shots, or stops at the KeyError |
| Media.Clips | src/youtube_script_agent/generators/media.py:46-56 | at most five suggestions, all B-roll clips, or a TypeError where the viral moments cannot be sliced |
| Media.NoClipsAfterFailedAnalysis | src/youtube_script_agent/generators/media.py:46-47 | an error-marker analysis gives no clips |
| Media.ClipsAreFirstMoments | src/youtube_script_agent/generators/media.py:49-56 | the clips are the first min(5, n) viral moments, in order |
| Media.AppendClips | src/youtube_script_agent/generators/media.py:49-56 | the clip loop appends one clip per moment, in order |
| Media.MediaShape | src/youtube_script_agent/generators/media.py:27-58 | min(10, n) screenshots of the first tweets in order, timestamped [60s], [120s], …, then the clips; the media kind exactly for tweets with media |
| Media.MediaRaisesOnUnscored | src/youtube_script_agent/generators/media.py:42 | the stage raises KeyError exactly when one of the first ten tweets has neither media nor a score |
| Media.GenerateMedia | src/youtube_script_agent/generators/media.py:9-61 | with an error nothing changes; otherwise only `media_suggestions` is written, or the exception escapes and nothing is written |
| Scripts.ContextOf | src/youtube_script_agent/generators/scripts.py:28-49 | the context pieces in f-string order; a join of non-strings or an unsliceable value raises TypeError, and a competitor analysis that is not a dict raises AttributeError |
| Scripts.WordRange | src/youtube_script_agent/generators/scripts.py:73 | the two "lo-hi" numerals times 150; ValueError for a piece that is not an integer, IndexError when there is no "-" |
| Scripts.ScriptsOutcome | src/youtube_script_agent/generators/scripts.py:28-90 | the context's or the word range's exception, or the variants of the first three templates |
| Scripts.JoinedStrings | src/youtube_script_agent/generators/scripts.py:40-42 | at most n strings are joined, or TypeError where the value cannot be sliced or holds a non-string |
| Scripts.AbsentKeyJoinsNothing | src/youtube_script_agent/generators/scripts.py:40-42 | a missing key joins to nothing |
| Scripts.StringListJoins | src/youtube_script_agent/generators/scripts.py:40-42 | a list of strings joins to its first n strings |
| Scripts.ContextShape | src/youtube_script_agent/generators/scripts.py:34-49 | the context carries the topic, tone and length, the first five hashtags, at most five topics, three moments and three angles, the first five tweets with texts cut to 100 characters, and the first ten media suggestions |
| Scripts.ContextAfterFailedAnalysis | src/youtube_script_agent/generators/scripts.py:39-41 | an error-marker analysis still gives a context, with sentiment "N/A" and no topics or moments |
| Scripts.NonDictCompetitorRaises | src/youtube_script_agent/generators/scripts.py:42 | a competitor analysis that is not a dict makes the stage raise |
| Scripts.WordRangeOfBounds | src/youtube_script_agent/generators/scripts.py:73 | a length "lo-hi" asks for lo·150 to hi·150 words |
| Scripts.WordRangeWithoutDash | src/youtube_script_agent/generators/scripts.py:73 | a length with no '-' raises IndexError on the second piece |
| Scripts.PresetWordRanges | src/youtube_script_agent/generators/scripts.py:73 | every preset yields a word range whose lower end is below its upper end |
| Scripts.VariantsFrom | src/youtube_script_agent/generators/scripts.py:53-88 | no more variants than templates |
| Scripts.VariantsFromTemplates | src/youtube_script_agent/generators/scripts.py:77-85 | each variant is the reply to some template's prompt: name and description from that template, script the reply, word count its number of whitespace-separated words (order is `Scripts.VariantsInTemplateOrder`) |
| Scripts.SucceededCallKept | src/youtube_script_agent/generators/scripts.py:77-88 | a template whose call succeeds yields a variant of its name with the reply as script, whatever the other calls do |
| Scripts.VariantPresentIff | src/youtube_script_agent/generators/scripts.py:77-88 | with distinct template names, a template's name is among the variants' exactly when its call succeeds |
| Scripts.VariantNamesDistinct | src/youtube_script_agent/generators/scripts.py:80-81 | templates with distinct names give variants with distinct names, each a template's name |
| Scripts.AllCallsSucceed | src/youtube_script_agent/generators/scripts.py:53-85 | when no call fails, every template gives its variant, in order |
| Scripts.AllCallsFail | src/youtube_script_agent/generators/scripts.py:87-88 | when every call fails, no variant is produced |
| Scripts.GeneratedTemplateNames | src/youtube_script_agent/generators/scripts.py:53 | the templates used are the first three: Hook-Heavy, Story-Driven, Analytical |
| Scripts.TemplateVariants | src/youtube_script_agent/generators/scripts.py:53-88 | over the first three templates the variant names are distinct template names, and all three in order when no call fails |
| Scripts.TemplatePresence | src/youtube_script_agent/generators/scripts.py:53-88 | each of the first three templates' names is among the variant names exactly when its own call succeeds |
| Scripts.GeneratedVariants | src/youtube_script_agent/generators/scripts.py:53-90 | at most three variants with distinct names among Hook-Heavy, Story-Driven and Analytical, all three in order when no call fails, and each template's variant present exactly when its own call succeeds, whatever the other calls do |
| Scripts.GenerateVariants | src/youtube_script_agent/generators/scripts.py:51-88 | the variant loop yields the template-ordered variants of the calls that succeed |
| Scripts.GenerateScripts | src/youtube_script_agent/generators/scripts.py:12-93 | with an error nothing changes; otherwise only `script_variants` is written (possibly []), or the context or word-range exception escapes and nothing is written |
| Scripts.VariantsInTemplateOrder | src/youtube_script_agent/generators/scripts.py:53-85 | a later variant comes from a later template, so the names are an order-preserving subsequence of the templates |
| FileManager.Compile | src/youtube_script_agent/utils/file_manager.py:27-51 | the package; TypeError where the trending topics cannot be sliced, then AttributeError where the competitor analysis is not a dict |
| FileManager.CompileShape | src/youtube_script_agent/utils/file_manager.py:27-51 | the package reports the numbers of raw and of filtered tweets, the first min(20, n) quality tweets, the variants and suggestions, and the first variant's name as the best exactly when there is a variant |
| FileManager.CompileOnlyTimestampDiffers | src/youtube_script_agent/utils/file_manager.py:27-51 | packages compiled at two moments differ only in `generated_at`, and fail alike |
| FileManager.NoTalkingPointsAfterFailedAnalysis | src/youtube_script_agent/utils/file_manager.py:48 | an error-marker analysis gives no talking points |
| FileManager.CompileFinalOutput | src/youtube_script_agent/utils/file_manager.py:12-56 | with an error nothing changes; otherwise only `final_output` is written, or the slicing TypeError or the `.get` AttributeError escapes and nothing is written |
| FileManager.Slug | src/youtube_script_agent/utils/file_manager.py:81 | same length as the name, lower case, each blank and dash turned into '_' |
| FileManager.SlugIdempotent | src/youtube_script_agent/utils/file_manager.py:81 | a slug is its own slug |
| FileManager.NumberBeforeUnderscore | src/youtube_script_agent/utils/file_manager.py:81 | the script number is recovered from the text that follows "script_" |
| FileManager.ScriptFileNamesDistinct | src/youtube_script_agent/utils/file_manager.py:80-81 | scripts at different positions get different file names, whatever their variant names |
| FileManager.ScriptFileNames | src/youtube_script_agent/utils/file_manager.py:80-81 | one file name per variant |
| FileManager.ScriptFileNamesNumbered | src/youtube_script_agent/utils/file_manager.py:80-81 | name i is "script_{i+1}_" + the slug of variant i + ".txt" |
| FileManager.ScriptFileNamesUnique | src/youtube_script_agent/utils/file_manager.py:80-81 | no two scripts are saved under the same name, even when two variants share a name |
| FileManager.SaveScriptNames | src/youtube_script_agent/utils/file_manager.py:71-81 | with an error no script is saved; otherwise the names in variant order; the state is not changed |
| Workflow.NodeNamesDistinct | src/youtube_script_agent/agents/workflow.py:36-46 | no two stages are registered under the same name, and none under the end's name |
| Workflow.StagesDistinct | src/youtube_script_agent/agents/workflow.py:36-46 | the chain registers each of the eleven stages once |
| Workflow.ChainEdges | src/youtube_script_agent/agents/workflow.py:50-60 | each node's edge leads to the next one, and the last one's to the end |
| Workflow.ChainSuccessors | src/youtube_script_agent/agents/workflow.py:50-60 | in a chain of distinct nodes each node has exactly one outgoing edge, none leads back to the entry, and the last leads to the end |
| Workflow.StateGraph.AddNode | src/youtube_script_agent/agents/workflow.py:36 | registers one more node and leaves edges and entry alone |
| Workflow.StateGraph.AddEdge | src/youtube_script_agent/agents/workflow.py:50 | adds one more edge and leaves nodes and entry alone |
| Workflow.StateGraph.SetEntryPoint | src/youtube_script_agent/agents/workflow.py:49 | sets the entry and leaves nodes and edges alone |
| Workflow.AddStageNodes | src/youtube_script_agent/agents/workflow.py:36-46 | the nodes become the eleven stages in registration order |
| Workflow.AddChainEdges | src/youtube_script_agent/agents/workflow.py:50-60 | the edges become the chain through the stages into the end |
| Workflow.BuildAgent | src/youtube_script_agent/agents/workflow.py:22-62 | a new graph whose nodes are the stages in order, whose entry is `discover_hashtags` and whose edges chain the stages into the end |
| Workflow.RunErrorCases | src/youtube_script_agent/scrapers/twitter.py:50-52 | a run ends with an error exactly when discovery fails or the scrape fails or finds no tweets, and the message is never empty |
| Workflow.DiscoverHashtagsNode | src/youtube_script_agent/agents/workflow.py:36 | the node sets the discovery error and hashtags and nothing else |
| Workflow.ScrapeTweetsNode | src/youtube_script_agent/agents/workflow.py:37 | the node sets the scrape error when discovery did not fail, and the raw tweets are new objects |
| Workflow.FilterTweetsNode | src/youtube_script_agent/agents/workflow.py:38 | the node keeps the run's invariant and error; it takes no client or LLM |
| Workflow.AnalyzeCompetitorsNode | src/youtube_script_agent/agents/workflow.py:39 | the node keeps the run's invariant and error |
| Workflow.ScrapeCommentsNode | src/youtube_script_agent/agents/workflow.py:40 | the node keeps the run's invariant and error |
| Workflow.FactCheckNode | src/youtube_script_agent/agents/workflow.py:41 | the node keeps the run's invariant and error |
| Workflow.AnalyzeSentimentNode | src/youtube_script_agent/agents/workflow.py:42 | the node keeps the run's invariant, or its exception escapes with the state untouched |
| Workflow.GenerateMediaNode | src/youtube_script_agent/agents/workflow.py:43 | the node keeps the run's invariant, or its exception escapes with the state untouched; it takes no client or LLM |
| Workflow.GenerateScriptsNode | src/youtube_script_agent/agents/workflow.py:44 | the node keeps the run's invariant, or its exception escapes with the state untouched |
| Workflow.CompileOutputNode | src/youtube_script_agent/agents/workflow.py:45 | the node keeps the run's invariant and, without an error, leaves the package compiled, or its exception escapes with the state untouched |
| Workflow.SaveFilesNode | src/youtube_script_agent/agents/workflow.py:46 | the node changes no state and yields the script file names, none after an error |
| Workflow.RunStage | src/youtube_script_agent/agents/workflow.py:49-60 | stage i of the chain: only the first two stages write `error`, and an exception escapes only from a later stage that found no error, leaving the state as it was |
| Workflow.RunPipeline | src/youtube_script_agent/agents/workflow.py:49-60 | given the compiled agent, its nodes run from the entry along the chain; `error` ends as the first failure of discovery or scraping sets it; an errored run raises nothing and leaves the state initial apart from `error` and the hashtags; an error-free run that raises nothing ends with the package compiled and the script names |
| Executor.TopicConfigOf | src/youtube_script_agent/agents/executor.py:124-128 | the preset of a known topic, and ValueError for any other name |
| Executor.LookupDetermines | src/youtube_script_agent/agents/executor.py:40 | two configurations with equal values under every key are equal |
| Executor.NoOverridesIsEmpty | src/youtube_script_agent/agents/executor.py:43 | the empty overrides are exactly those that override no key |
| Executor.Merge | src/youtube_script_agent/agents/executor.py:40-44 | every key the overrides give takes the override value, every other key keeps the preset value |
| Executor.MergeIdempotent | src/youtube_script_agent/agents/executor.py:44 | applying the same overrides twice gives what applying them once does |
| Executor.ConfiguredCases | src/youtube_script_agent/agents/executor.py:39-44 | None or an empty dict leaves the preset copy as it is; any overrides give the merge |
| Executor.RunAgentForTopic | src/youtube_script_agent/agents/executor.py:18-97 | an unknown topic raises ValueError; otherwise the run returns None exactly when the run's error is set, and a returned state has the topic, the merged configuration, no error, its package and the script names |
| Executor.CadenceOf | src/youtube_script_agent/agents/executor.py:133-156 | "daily" selects the daily cadence and each weekday's lower-case name its weekly one, in both directions |
| Executor.JobForCases | src/youtube_script_agent/agents/executor.py:124-156 | a topic registers one job exactly when it has a preset whose day is recognised, at its preset time and on the selected cadence, and none otherwise |
| Executor.JobsForAppend | src/youtube_script_agent/agents/executor.py:123 | the jobs of two topic lists in turn are those of each, concatenated |
| Executor.SkipUnknownTopic | src/youtube_script_agent/agents/executor.py:124-128 | a topic without a preset is skipped and the topics after it are still registered |
| Executor.JobsForMembers | src/youtube_script_agent/agents/executor.py:123-156 | every job belongs to a listed topic, and every listed topic that registers a job has it registered |
| Executor.PresetTopicsAllScheduled | src/youtube_script_agent/agents/executor.py:123-156 | a list of preset topics registers one job per topic, in list order |
| Executor.SetupAutomation | src/youtube_script_agent/agents/executor.py:112-156 | the registration loop yields the jobs of the topic list |
| JsonValues.ExtractJsonText | src/youtube_script_agent/analyzers/sentiment.py:68-71 | when the reply holds the opening fence "```json": the part between the first opening fence and the second (or the end), cut at the first closing fence "```" inside it; else the whole reply; then stripped |
| JsonValues.Get | src/youtube_script_agent/utils/file_manager.py:49 | `d.get(k, default)`: the value under a present key, the default otherwise |
| JsonValues.ErrorMarker | src/youtube_script_agent/analyzers/sentiment.py:78 | the `{'error': str(e)}` marker holds only the message under "error" |
| JsonValues.Slice | src/youtube_script_agent/utils/file_manager.py:48 | `j[:n]` keeps the first min(n, len) elements of a list or characters of a string; other values raise |
| JsonValues.JoinableStrings | src/youtube_script_agent/generators/scripts.py:40-42 | `', '.join` of a list succeeds exactly when every element is a string |
| JsonValues.UnfencedReply | src/youtube_script_agent/analyzers/fact_checker.py:61-64 | a reply without "```json" is parsed whole, stripped |
| JsonValues.FencedReply | src/youtube_script_agent/analyzers/sentiment.py:68-71 | a reply "pre ```json body ``` post" hands exactly the stripped body to the parser |
| Text.Words | src/youtube_script_agent/generators/scripts.py:84 | `str.split()`: the maximal runs of non-whitespace characters |
| Text.PyInt | src/youtube_script_agent/generators/scripts.py:73 | `int(s)` in base 10: optional sign and digits with single underscores between them, surrounding blanks allowed; None where Python raises ValueError |
| Text.WordCountIsWordStarts | src/youtube_script_agent/generators/scripts.py:84 | the number of words `split()` returns is the number of non-whitespace characters that start the text or follow whitespace |
| Text.JoinSplit | src/youtube_script_agent/scrapers/twitter.py:35 | splitting at a separator and joining with it gives the text back |
| Text.SplitJoin | src/youtube_script_agent/scrapers/twitter.py:35 | joining pieces free of the separator's first character and splitting again gives the pieces back |

## Left out

- Twitter and LLM calls are parameters that return data or the message of a failure.
  - Responses are assumed well-formed.
  - An exception while building a record from a malformed response object is not modelled.
  - Only the inputs of a prompt are modelled, not its wording or its `json.dumps` rendering.
  - A search request is its query, its result cap and the field set its call site asks for. The client is a function of the request, so identical requests get identical responses.
  - So two quality tweets that share a `conversation_id` get the same replies, where the live service could answer the two calls differently.
  - Likewise the same LLM prompt always gets the same reply.
- `json.loads` is a parameter applied to the extracted text.
- Clocks are left out: `utcnow()`, the 24-hour search window and the output directory timestamp. The compile time is the parameter `generatedAt`.
- `save_outputs` writes nothing in the model. Of its file writes, `mkdir` and directory naming, only the script file names are modelled.
- The `schedule` library is left out: the `while True` polling loop, `time.sleep`, and the validation `at()` does on the time string.
  - Scheduling registers `Executor.Job` values instead.
  - `scheduled_job` is `Executor.RunAgentForTopic` with no overrides.
- Client construction, the printed banners and the execution summary of `run_agent_for_topic` are left out.
- Executor.RunAgentForTopic: gives `Finished` even where printing the summary would raise, because the summary is not modelled. It raises in these cases:
  - `len(fact_check_results)` raises TypeError when the kept parsed fact-check reply is a number, a bool or null;
  - slicing `trending_topics` or `unique_angles` raises TypeError on a value that is neither a list nor a string;
  - `comp.get` raises AttributeError when the parsed competitor reply is not a dict.
- The LangGraph runtime is modelled only by its effect: the stages in chain order, each on the state the previous one left. Its state-merging machinery is not modelled.
- `main.py` (the command line) is not part of this model. It drops zero-valued overrides before they reach the executor.
- `logger.py` is not part of this model.
- `core/config.py` is not part of this model.
  - `get_topic_config` is the preset lookup, raising ValueError for an unknown topic, as `executor.py` expects.
  - Loading a configuration file, the API keys and the model name are left out.
- `core/state.py` is not part of this model. The initial state has every list empty, every dict `{}`, no error and no package.
- Executor.Merge: overrides cover the eight preset keys with values of the right type. Arbitrary extra keys and ill-typed values are not modelled.
- Floating point: scores and ratios are exact reals, so IEEE rounding is not modelled.
- `str.lower()` lowers ASCII letters only. `int()` accepts ASCII digits only. Unicode case mapping and Unicode digits are left out.
- Dict key order is not modelled for JSON objects. It is modelled for the hashtag counts, whose order decides ties.
- Scripts.GenerateScripts: the word range is computed once before the variant loop. The source computes it in every iteration before the `try`; both give the same range or raise on the first template.
- Slicing a JSON value that is neither a list nor a string is modelled as TypeError. For a dict, Python 3.12 and later raise KeyError instead.
- Competitor.AnalyzeCompetitors: the configuration always has `competitor_channels`, so a missing key is the same as an empty list.
