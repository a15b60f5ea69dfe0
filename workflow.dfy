/**
 * The agent: eleven stages wired into a straight chain from `discover_hashtags` to
 * `save_files`, and a run of that chain as a loop threading one state through the
 * stages in order. An exception a stage does not catch ends the run.
 */
module Workflow {
  import opened Wrappers
  import opened Seqs
  import opened Sorting
  import opened JsonValues
  import opened Constants
  import opened Services
  import opened State
  import Hashtags
  import Twitter
  import Filters
  import Competitor
  import Comments
  import FactCheck
  import Sentiment
  import Media
  import Scripts
  import FileManager

  // ----------------------------------------------------------------- stages

  datatype Stage =
    | DiscoverHashtags | ScrapeTweets | FilterTweets | AnalyzeCompetitors | ScrapeComments | FactCheckClaims
    | AnalyzeSentiment | GenerateMedia | GenerateScripts | CompileOutput | SaveFiles

  /** The stages in the order the edges chain them. */
  const Stages: seq<Stage> := [DiscoverHashtags, ScrapeTweets, FilterTweets, AnalyzeCompetitors, ScrapeComments,
    FactCheckClaims, AnalyzeSentiment, GenerateMedia, GenerateScripts, CompileOutput, SaveFiles]

  /** The name each stage's node is registered under. */
  function NodeName(s: Stage): string {
    match s
    case DiscoverHashtags => "discover_hashtags"
    case ScrapeTweets => "scrape_tweets"
    case FilterTweets => "filter_tweets"
    case AnalyzeCompetitors => "analyze_competitors"
    case ScrapeComments => "scrape_comments"
    case FactCheckClaims => "fact_check"
    case AnalyzeSentiment => "analyze_sentiment"
    case GenerateMedia => "generate_media"
    case GenerateScripts => "generate_scripts"
    case CompileOutput => "compile_output"
    case SaveFiles => "save_files"
  }

  /** The graph's name for the end of the run. */
  const EndName: string := "__end__"

  /** Each name's length and first letter, which already tell the names apart. */
  lemma NameKey(s: Stage)
    ensures |NodeName(s)| == KeyLength(s) && NodeName(s)[0] == KeyLetter(s)
  {
  }

  function KeyLength(s: Stage): nat {
    match s
    case DiscoverHashtags => 17
    case ScrapeTweets => 13
    case FilterTweets => 13
    case AnalyzeCompetitors => 19
    case ScrapeComments => 15
    case FactCheckClaims => 10
    case AnalyzeSentiment => 17
    case GenerateMedia => 14
    case GenerateScripts => 16
    case CompileOutput => 14
    case SaveFiles => 10
  }

  function KeyLetter(s: Stage): char {
    match s
    case DiscoverHashtags => 'd'
    case ScrapeTweets => 's'
    case FilterTweets => 'f'
    case AnalyzeCompetitors => 'a'
    case ScrapeComments => 's'
    case FactCheckClaims => 'f'
    case AnalyzeSentiment => 'a'
    case GenerateMedia => 'g'
    case GenerateScripts => 'g'
    case CompileOutput => 'c'
    case SaveFiles => 's'
  }

  /** No two stages share a node name, and none is named like the end. */
  lemma NodeNamesDistinct(a: Stage, b: Stage)
    ensures NodeName(a) == NodeName(b) ==> a == b
    ensures NodeName(a) != EndName
  {
    NameKey(a);
    NameKey(b);
    assert EndName[0] == '_';
  }

  /** The chain registers every stage once. */
  lemma StagesDistinct()
    ensures NoDuplicates(Stages)
  {
  }

  // ------------------------------------------------------------------ graph

  /** Where an edge leads: a node, or the end of the run. */
  datatype Target<T> = To(node: T) | EndNode

  /** The edges of a chain through `ns`, each node to the next and the last one to the end. */
  function ChainEdges<T>(ns: seq<T>): (edges: seq<(T, Target<T>)>)
    ensures |edges| == |ns|
    ensures forall i :: 0 <= i < |ns| ==> edges[i] == (ns[i], if i + 1 < |ns| then To(ns[i + 1]) else EndNode)
  {
    seq(|ns|, i requires 0 <= i < |ns| => (ns[i], if i + 1 < |ns| then To(ns[i + 1]) else EndNode))
  }

  /**
   * In a chain through distinct nodes, each node has exactly one outgoing edge: to the
   * next node, or to the end for the last one; and no edge leads into the first.
   */
  lemma ChainSuccessors<T>(ns: seq<T>)
    requires NoDuplicates(ns)
    ensures forall i, j :: 0 <= i < |ns| && 0 <= j < |ns| && ChainEdges(ns)[j].0 == ns[i] ==> j == i
    ensures forall j :: 0 <= j < |ns| ==> ChainEdges(ns)[j].1 != To(ns[0])
    ensures ns != [] ==> ChainEdges(ns)[|ns| - 1].1 == EndNode
  {
    var edges := ChainEdges(ns);
    forall j | 0 <= j < |ns| ensures edges[j].1 != To(ns[0]) {
      if j + 1 < |ns| {
        assert edges[j].1 == To(ns[j + 1]);
      }
    }
  }

  /**
   * The graph builder: the nodes in registration order (each stage stands for its
   * name and node function), the edges in the order added, and the entry point.
   */
  class StateGraph {
    var nodes: seq<Stage>
    var edges: seq<(Stage, Target<Stage>)>
    var entry: Option<Stage>

    constructor ()
      ensures nodes == [] && edges == [] && entry.None?
    {
      nodes := [];
      edges := [];
      entry := None;
    }

    method AddNode(s: Stage)
      modifies this
      ensures nodes == old(nodes) + [s] && edges == old(edges) && entry == old(entry)
    {
      nodes := nodes + [s];
    }

    method AddEdge(source: Stage, target: Target<Stage>)
      modifies this
      ensures edges == old(edges) + [(source, target)] && nodes == old(nodes) && entry == old(entry)
    {
      edges := edges + [(source, target)];
    }

    method SetEntryPoint(s: Stage)
      modifies this
      ensures entry == Some(s) && nodes == old(nodes) && edges == old(edges)
    {
      entry := Some(s);
    }
  }

  /**
   * build_agent: one node per stage, the entry at `discover_hashtags`, and the edges
   * chaining the stages in order into the end. The clients the nodes close over are
   * the stage methods' parameters in RunPipeline.
   */
  method BuildAgent() returns (g: StateGraph)
    ensures fresh(g)
    ensures g.nodes == Stages && g.entry == Some(Stages[0]) && g.edges == ChainEdges(Stages)
  {
    g := new StateGraph();
    AddStageNodes(g);
    g.SetEntryPoint(DiscoverHashtags);
    AddChainEdges(g);
  }

  /** The eleven `add_node` calls, in order. */
  method AddStageNodes(g: StateGraph)
    requires g.nodes == []
    modifies g
    ensures g.nodes == Stages && g.edges == old(g.edges) && g.entry == old(g.entry)
  {
    g.AddNode(DiscoverHashtags);
    g.AddNode(ScrapeTweets);
    g.AddNode(FilterTweets);
    g.AddNode(AnalyzeCompetitors);
    g.AddNode(ScrapeComments);
    g.AddNode(FactCheckClaims);
    g.AddNode(AnalyzeSentiment);
    g.AddNode(GenerateMedia);
    g.AddNode(GenerateScripts);
    g.AddNode(CompileOutput);
    g.AddNode(SaveFiles);
  }

  /** The eleven `add_edge` calls, in order. */
  method AddChainEdges(g: StateGraph)
    requires g.edges == []
    modifies g
    ensures g.edges == ChainEdges(Stages) && g.nodes == old(g.nodes) && g.entry == old(g.entry)
  {
    g.AddEdge(DiscoverHashtags, To(ScrapeTweets));
    g.AddEdge(ScrapeTweets, To(FilterTweets));
    g.AddEdge(FilterTweets, To(AnalyzeCompetitors));
    g.AddEdge(AnalyzeCompetitors, To(ScrapeComments));
    g.AddEdge(ScrapeComments, To(FactCheckClaims));
    g.AddEdge(FactCheckClaims, To(AnalyzeSentiment));
    g.AddEdge(AnalyzeSentiment, To(GenerateMedia));
    g.AddEdge(GenerateMedia, To(GenerateScripts));
    g.AddEdge(GenerateScripts, To(CompileOutput));
    g.AddEdge(CompileOutput, To(SaveFiles));
    g.AddEdge(SaveFiles, EndNode);
  }

  // -------------------------------------------------------------------- run

  /** The error an outcome of the scrape leaves. */
  function ScrapeError(r: Twitter.ScrapeResult): Option<string> {
    match r
    case ScrapeFailed(m) => Some(Twitter.ScrapeErrorPrefix + m)
    case NoTweets => Some(Twitter.NoTweetsMessage)
    case Scraped(_) => None
  }

  /** `error` at the end of a run: only hashtag discovery and the scrape ever set it. */
  function RunError(cfg: TopicConfig, client: Client): Option<string> {
    match Hashtags.HashtagOutcome(cfg, client)
    case Err(m) => Some(Hashtags.HashtagErrorPrefix + m)
    case Ok(tags) => ScrapeError(Twitter.ScrapeOutcome(cfg.searchBase, tags, client))
  }

  /** `trending_hashtags` at the end of a run: the discovered tags, or none when discovery fails. */
  function RunHashtags(cfg: TopicConfig, client: Client): seq<string> {
    Hashtags.AfterDiscovery(Hashtags.HashtagOutcome(cfg, client), None).1
  }

  /** A run fails exactly when hashtag discovery fails, or the scrape fails or finds no tweets; its message is never empty. */
  lemma RunErrorCases(cfg: TopicConfig, client: Client)
    ensures RunError(cfg, client).None? <==>
      Hashtags.HashtagOutcome(cfg, client).Ok?
      && Twitter.ScrapeOutcome(cfg.searchBase, RunHashtags(cfg, client), client).Scraped?
    ensures RunError(cfg, client).Some? ==> RunError(cfg, client).value != ""
  {
  }

  /** Everything but `error` and `trending_hashtags` is as the initial state has it. */
  predicate Quiet(st: PipelineState)
    reads st
  {
    && st.rawTweets == [] && st.filteredTweets == [] && st.competitorAnalysis == JObj(EmptyDict)
    && st.factCheckResults == EmptyList && st.sentimentAnalysis == EmptyDict && st.trendingTopics == EmptyList
    && st.mediaSuggestions == [] && st.scriptVariants == [] && st.finalOutput.None?
  }

  /**
   * What holds after the first k stages, given the error e1 and the hashtags tags that
   * discovery leaves and the error e2 the scrape then leaves: the error and the
   * hashtags are as those two stages set them, a state that is errored or not yet
   * scraped is otherwise initial, every quality tweet is a scraped tweet, and past
   * compile_output an error-free run has its package.
   */
  predicate Threaded(st: PipelineState, e1: Option<string>, tags: seq<string>, e2: Option<string>, k: nat)
    reads st
  {
    && st.error == (if k == 0 then None else if k == 1 then e1 else e2)
    && st.trendingHashtags == (if k == 0 then [] else tags)
    && (k <= 1 || st.error.Some? ==> Quiet(st))
    && (forall t :: t in st.filteredTweets ==> t in st.rawTweets)
    && (k >= 10 && st.error.None? ==> st.finalOutput.Some?)
  }

  /** The `discover_hashtags` node: discovery, whose outcome is h, sets the error e1 and the hashtags. */
  method DiscoverHashtagsNode(st: PipelineState, client: Client, ghost h: Result<seq<string>>,
                              ghost e1: Option<string>, ghost tags: seq<string>, ghost e2: Option<string>)
    requires h == Hashtags.HashtagOutcome(st.config, client) && (e1, tags) == Hashtags.AfterDiscovery(h, None)
    requires Threaded(st, e1, tags, e2, 0)
    modifies st
    ensures Threaded(st, e1, tags, e2, 1) && st.rawTweets == old(st.rawTweets)
  {
    Hashtags.DiscoverHashtags(st, client);
  }

  /** The `scrape_tweets` node: the scrape, when discovery did not fail, sets the error e2. */
  method ScrapeTweetsNode(st: PipelineState, client: Client, ghost e1: Option<string>, ghost tags: seq<string>, ghost e2: Option<string>)
    requires e2 == if e1.Some? then e1 else ScrapeError(Twitter.ScrapeOutcome(st.config.searchBase, tags, client))
    requires Threaded(st, e1, tags, e2, 1)
    modifies st
    ensures Threaded(st, e1, tags, e2, 2)
    ensures forall t :: t in st.rawTweets ==> fresh(t)
  {
    Twitter.ScrapeTweets(st, client);
  }

  /** The `filter_tweets` node. */
  method FilterTweetsNode(st: PipelineState, ghost e1: Option<string>, ghost tags: seq<string>, ghost e2: Option<string>)
    requires Threaded(st, e1, tags, e2, 2)
    modifies st, set t | t in st.rawTweets
    ensures Threaded(st, e1, tags, e2, 3) && st.rawTweets == old(st.rawTweets)
  {
    Filters.FilterQualityTweets(st);
    Filters.QualityTweetsMembers(st.rawTweets, st.config);
  }

  /** The `analyze_competitors` node. */
  method AnalyzeCompetitorsNode(st: PipelineState, client: Client, llm: Llm, parse: JsonParser, ghost e1: Option<string>, ghost tags: seq<string>, ghost e2: Option<string>)
    requires Threaded(st, e1, tags, e2, 3)
    modifies st
    ensures Threaded(st, e1, tags, e2, 4) && st.rawTweets == old(st.rawTweets)
  {
    Competitor.AnalyzeCompetitors(st, client, llm, parse);
  }

  /** The `scrape_comments` node. */
  method ScrapeCommentsNode(st: PipelineState, client: Client, ghost e1: Option<string>, ghost tags: seq<string>, ghost e2: Option<string>)
    requires Threaded(st, e1, tags, e2, 4)
    modifies st, set t | t in st.rawTweets
    ensures Threaded(st, e1, tags, e2, 5) && st.rawTweets == old(st.rawTweets)
  {
    ghost var filtered := st.filteredTweets;
    Comments.ScrapeComments(st, client);
    assert forall t :: t in st.filteredTweets ==> t in filtered;
  }

  /** The `fact_check` node. */
  method FactCheckNode(st: PipelineState, llm: Llm, parse: JsonParser, ghost e1: Option<string>, ghost tags: seq<string>, ghost e2: Option<string>)
    requires Threaded(st, e1, tags, e2, 5)
    modifies st, set t | t in st.rawTweets
    ensures Threaded(st, e1, tags, e2, 6) && st.rawTweets == old(st.rawTweets)
  {
    FactCheck.FactCheckClaims(st, llm, parse);
  }

  /** The `analyze_sentiment` node; an exception it raises escapes with the state untouched. */
  method AnalyzeSentimentNode(st: PipelineState, llm: Llm, parse: JsonParser, ghost e1: Option<string>, ghost tags: seq<string>, ghost e2: Option<string>) returns (escape: Option<Uncaught>)
    requires Threaded(st, e1, tags, e2, 6)
    modifies st
    ensures escape.None? ==> Threaded(st, e1, tags, e2, 7)
    ensures escape.Some? ==> old(st.error).None? && unchanged(st)
    ensures st.rawTweets == old(st.rawTweets)
  {
    escape := Sentiment.AnalyzeSentiment(st, llm, parse);
  }

  /** The `generate_media` node; an exception it raises escapes with the state untouched. */
  method GenerateMediaNode(st: PipelineState, ghost e1: Option<string>, ghost tags: seq<string>, ghost e2: Option<string>) returns (escape: Option<Uncaught>)
    requires Threaded(st, e1, tags, e2, 7)
    modifies st
    ensures escape.None? ==> Threaded(st, e1, tags, e2, 8)
    ensures escape.Some? ==> old(st.error).None? && unchanged(st)
    ensures st.rawTweets == old(st.rawTweets)
  {
    escape := Media.GenerateMedia(st);
  }

  /** The `generate_scripts` node; an exception it raises escapes with the state untouched. */
  method GenerateScriptsNode(st: PipelineState, llm: Llm, ghost e1: Option<string>, ghost tags: seq<string>, ghost e2: Option<string>) returns (escape: Option<Uncaught>)
    requires Threaded(st, e1, tags, e2, 8)
    modifies st
    ensures escape.None? ==> Threaded(st, e1, tags, e2, 9)
    ensures escape.Some? ==> old(st.error).None? && unchanged(st)
    ensures st.rawTweets == old(st.rawTweets)
  {
    escape := Scripts.GenerateScripts(st, llm);
  }

  /** The `compile_output` node; an exception it raises escapes with the state untouched. */
  method CompileOutputNode(st: PipelineState, generatedAt: string, ghost e1: Option<string>, ghost tags: seq<string>, ghost e2: Option<string>) returns (escape: Option<Uncaught>)
    requires Threaded(st, e1, tags, e2, 9)
    modifies st
    ensures escape.None? ==> Threaded(st, e1, tags, e2, 10)
    ensures escape.Some? ==> old(st.error).None? && unchanged(st)
    ensures st.rawTweets == old(st.rawTweets)
  {
    escape := FileManager.CompileFinalOutput(st, generatedAt);
  }

  /** The `save_files` node: the script file names, and no change to the state. */
  method SaveFilesNode(st: PipelineState, ghost e1: Option<string>, ghost tags: seq<string>, ghost e2: Option<string>) returns (files: seq<string>)
    requires Threaded(st, e1, tags, e2, 10)
    ensures Threaded(st, e1, tags, e2, 11)
    ensures files == (if st.error.Some? then [] else FileManager.ScriptFileNames(st.scriptVariants))
  {
    files := FileManager.SaveScriptNames(st);
  }

  /**
   * Node i of the chain, the one of stage Stages[i], applied to the state. Stages past
   * the second leave `error` as they found it; an exception escapes only from a stage
   * from analyze_sentiment on that found no error, and then the state is as it was.
   * save_files changes no state and yields the script file names.
   */
  method RunStage(st: PipelineState, i: nat, client: Client, llm: Llm, parse: JsonParser, generatedAt: string,
                  ghost h: Result<seq<string>>, ghost e1: Option<string>, ghost tags: seq<string>, ghost e2: Option<string>)
    returns (escape: Option<Uncaught>, files: seq<string>)
    requires i < |Stages|
    requires i == 0 ==> h == Hashtags.HashtagOutcome(st.config, client) && (e1, tags) == Hashtags.AfterDiscovery(h, None)
    requires i == 1 ==> e2 == if e1.Some? then e1 else ScrapeError(Twitter.ScrapeOutcome(st.config.searchBase, tags, client))
    requires Threaded(st, e1, tags, e2, i)
    modifies st, set t | t in st.rawTweets
    ensures escape.None? ==> Threaded(st, e1, tags, e2, i + 1)
    ensures escape.Some? ==> i >= 6 && old(st.error).None? && unchanged(st)
    ensures forall t :: t in st.rawTweets ==> t in old(st.rawTweets) || fresh(t)
    ensures escape.None? && i == 10 ==>
      files == (if st.error.Some? then [] else FileManager.ScriptFileNames(st.scriptVariants))
  {
    escape, files := None, [];
    if i == 0 {
      DiscoverHashtagsNode(st, client, h, e1, tags, e2);
    } else if i == 1 {
      ScrapeTweetsNode(st, client, e1, tags, e2);
    } else if i == 2 {
      FilterTweetsNode(st, e1, tags, e2);
    } else if i == 3 {
      AnalyzeCompetitorsNode(st, client, llm, parse, e1, tags, e2);
    } else if i == 4 {
      ScrapeCommentsNode(st, client, e1, tags, e2);
    } else if i == 5 {
      FactCheckNode(st, llm, parse, e1, tags, e2);
    } else if i == 6 {
      escape := AnalyzeSentimentNode(st, llm, parse, e1, tags, e2);
    } else if i == 7 {
      escape := GenerateMediaNode(st, e1, tags, e2);
    } else if i == 8 {
      escape := GenerateScriptsNode(st, llm, e1, tags, e2);
    } else if i == 9 {
      escape := CompileOutputNode(st, generatedAt, e1, tags, e2);
    } else {
      files := SaveFilesNode(st, e1, tags, e2);
    }
  }

  /**
   * The compiled agent invoked on the initial state: starting at its entry point, its
   * nodes run along the chain of edges until one raises. `error` ends as the first two stages set it; an errored run raises
   * nothing and leaves the state initial apart from `error` and the hashtags; an
   * error-free run that raises nothing ends with the final package compiled and the
   * script file names.
   */
  method RunPipeline(agent: StateGraph, st: PipelineState, client: Client, llm: Llm, parse: JsonParser,
                     generatedAt: string)
    returns (escape: Option<Uncaught>, files: seq<string>)
    requires agent.nodes == Stages && agent.entry == Some(agent.nodes[0]) && agent.edges == ChainEdges(agent.nodes)
    requires st.IsInitial()
    modifies st
    ensures st.error == RunError(st.config, client) && st.trendingHashtags == RunHashtags(st.config, client)
    ensures st.error.Some? ==> escape.None? && files == [] && Quiet(st)
    ensures st.error.None? && escape.None? ==>
      st.finalOutput.Some? && files == FileManager.ScriptFileNames(st.scriptVariants)
    ensures escape.Some? ==> files == []
  {
    ghost var h := Hashtags.HashtagOutcome(st.config, client);
    ghost var e1, tags := Hashtags.AfterDiscovery(h, None).0, Hashtags.AfterDiscovery(h, None).1;
    ghost var e2 := if e1.Some? then e1 else ScrapeError(Twitter.ScrapeOutcome(st.config.searchBase, tags, client));
    assert e2 == RunError(st.config, client);
    escape, files := None, [];
    var i := 0;
    while i < |agent.nodes|
      invariant 0 <= i <= |Stages|
      invariant Threaded(st, e1, tags, e2, i)
      invariant forall t :: t in st.rawTweets ==> fresh(t)
      invariant i == |Stages| ==> files == (if st.error.Some? then [] else FileManager.ScriptFileNames(st.scriptVariants))
    {
      var e, names := RunStage(st, i, client, llm, parse, generatedAt, h, e1, tags, e2);
      if e.Some? {
        return e, [];
      }
      files := names;
      i := i + 1;
    }
  }
}
