/**
 * Script generation: one shared context built from the run's findings, then one LLM
 * call per variant template among the first three; a failed call skips its variant.
 */
module Scripts {
  import opened Wrappers
  import opened Seqs
  import opened Sorting
  import opened Text
  import opened JsonValues
  import opened Constants
  import opened Records
  import opened Services
  import opened State
  import Sentiment
  import Media

  const MaxContextHashtags: nat := 5
  const MaxContextTopics: nat := 5
  const MaxContextMoments: nat := 3
  const MaxContextAngles: nat := 3
  const MaxTopTweets: nat := 5
  const MaxTopTweetChars: nat := 100
  const MaxContextMedia: nat := 10
  const MaxGeneratedVariants: nat := 3
  const WordsPerMinute: int := 150
  const SentimentKey: string := "sentiment"
  const NotAvailable: Json := JStr("N/A")
  const UniqueAnglesKey: string := "unique_angles"

  // ---------------------------------------------------------------- context

  /**
   * `', '.join(d.get(key, [])[:n])`: the strings joined, or TypeError where the value
   * cannot be sliced or holds something other than strings.
   */
  function JoinedStrings(d: map<string, Json>, key: string, n: nat): (r: Outcome<seq<string>>)
    ensures r.Done? ==> |r.value| <= n
  {
    match Slice(Get(d, key, EmptyList), n)
    case None => Raises(TypeError)
    case Some(s) =>
      match JoinableStrings(s)
      case None => Raises(TypeError)
      case Some(ss) => Done(ss)
  }

  /** A key the dict lacks joins to nothing. */
  lemma AbsentKeyJoinsNothing(d: map<string, Json>, key: string, n: nat)
    requires key !in d
    ensures JoinedStrings(d, key, n) == Done([])
  {
  }

  /** A list of strings joins its first n strings. */
  lemma StringListJoins(d: map<string, Json>, key: string, n: nat, items: seq<Json>, strs: seq<string>)
    requires key in d && d[key] == JArr(items)
    requires |items| == |strs| && forall i :: 0 <= i < |items| ==> items[i] == JStr(strs[i])
    ensures JoinedStrings(d, key, n) == Done(Take(strs, n))
  {
    var cut := items[..Min(n, |items|)];
    assert Slice(Get(d, key, EmptyList), n) == Some(JArr(cut));
    assert forall i :: 0 <= i < |cut| ==> cut[i] == JStr(strs[i]);
    assert JoinableStrings(JArr(cut)).Some?;
    var joined := JoinableStrings(JArr(cut)).value;
    assert |joined| == |Take(strs, n)|;
    assert forall i :: 0 <= i < |joined| ==> joined[i] == Take(strs, n)[i];
    assert joined == Take(strs, n);
  }

  /** `{'author', 'text'[:100], 'engagement'}` of one of the top tweets. */
  function TopTweetOf(r: TweetRecord): TopTweet {
    TopTweet(r.authorUsername, Take(r.text, MaxTopTweetChars), r.totalEngagement)
  }

  /**
   * The shared context, its pieces evaluated left to right as the f-string does: the
   * topics, the viral moments, then the unique angles, where `.get` on a competitor
   * analysis that is not a dict raises AttributeError.
   */
  function ContextOf(topic: string, cfg: TopicConfig, hashtags: seq<string>, sentiment: map<string, Json>,
                     competitor: Json, recs: seq<TweetRecord>, media: seq<MediaSuggestion>): Outcome<ScriptContext>
  {
    match JoinedStrings(sentiment, Sentiment.TrendingTopicsKey, MaxContextTopics)
    case Raises(e) => Raises(e)
    case Done(topics) =>
      match JoinedStrings(sentiment, Media.ViralMomentsKey, MaxContextMoments)
      case Raises(e) => Raises(e)
      case Done(moments) =>
        if !competitor.JObj? then Raises(AttributeError)
        else
          match JoinedStrings(competitor.fields, UniqueAnglesKey, MaxContextAngles)
          case Raises(e) => Raises(e)
          case Done(angles) =>
            Done(ScriptContext(topic, cfg.tone, cfg.videoLength, Take(hashtags, MaxContextHashtags),
              Get(sentiment, SentimentKey, NotAvailable), topics, moments, angles,
              MapSeq(Take(recs, MaxTopTweets), TopTweetOf), Take(media, MaxContextMedia)))
  }

  /**
   * The context carries the topic, the tone, the first five hashtags, at most five
   * topics, three moments and three angles, the first five tweets (texts cut to a
   * hundred characters) and the first ten media suggestions.
   */
  lemma ContextShape(topic: string, cfg: TopicConfig, hashtags: seq<string>, sentiment: map<string, Json>,
                     competitor: Json, recs: seq<TweetRecord>, media: seq<MediaSuggestion>)
    requires ContextOf(topic, cfg, hashtags, sentiment, competitor, recs, media).Done?
    ensures var c := ContextOf(topic, cfg, hashtags, sentiment, competitor, recs, media).value;
      && c.topic == topic && c.tone == cfg.tone && c.videoLength == cfg.videoLength
      && c.hashtags == Take(hashtags, MaxContextHashtags)
      && |c.trendingTopics| <= MaxContextTopics && |c.viralMoments| <= MaxContextMoments
      && |c.uniqueAngles| <= MaxContextAngles
      && |c.topTweets| == Min(MaxTopTweets, |recs|)
      && (forall i :: 0 <= i < |c.topTweets| ==>
            && c.topTweets[i].author == recs[i].authorUsername
            && |c.topTweets[i].text| <= MaxTopTweetChars
            && c.topTweets[i].text == recs[i].text[..|c.topTweets[i].text|])
      && c.media == Take(media, MaxContextMedia)
  {
  }

  /**
   * A failed sentiment analysis (only the error marker) does not stop the context: it
   * has no topics and no moments, and its sentiment reads "N/A".
   */
  lemma ContextAfterFailedAnalysis(topic: string, cfg: TopicConfig, hashtags: seq<string>, msg: string,
                                   f: map<string, Json>, recs: seq<TweetRecord>, media: seq<MediaSuggestion>)
    requires UniqueAnglesKey !in f
    ensures ContextOf(topic, cfg, hashtags, ErrorMarker(msg), JObj(f), recs, media).Done?
    ensures var c := ContextOf(topic, cfg, hashtags, ErrorMarker(msg), JObj(f), recs, media).value;
      c.trendingTopics == [] && c.viralMoments == [] && c.uniqueAngles == [] && c.sentiment == NotAvailable
  {
    assert Sentiment.TrendingTopicsKey !in ErrorMarker(msg) && Media.ViralMomentsKey !in ErrorMarker(msg) && SentimentKey !in ErrorMarker(msg);
  }

  /** A competitor analysis that parsed to something other than a dict makes the stage raise. */
  lemma NonDictCompetitorRaises(topic: string, cfg: TopicConfig, hashtags: seq<string>, sentiment: map<string, Json>,
                                competitor: Json, recs: seq<TweetRecord>, media: seq<MediaSuggestion>)
    requires !competitor.JObj?
    ensures ContextOf(topic, cfg, hashtags, sentiment, competitor, recs, media).Raises?
  {
  }

  // ------------------------------------------------------------- word range

  /**
   * `int(vl.split('-')[0]) * 150` and `int(vl.split('-')[1]) * 150`, in that order:
   * ValueError where a piece is not an integer, IndexError where there is no '-'.
   */
  function WordRange(videoLength: string): Outcome<(int, int)> {
    var parts := Split(videoLength, "-");
    match PyInt(parts[0])
    case None => Raises(ValueError)
    case Some(lo) =>
      if |parts| < 2 then Raises(IndexError)
      else
        match PyInt(parts[1])
        case None => Raises(ValueError)
        case Some(hi) => Done((lo * WordsPerMinute, hi * WordsPerMinute))
  }

  /** A length "lo-hi" asks for 150 words per minute at both ends. */
  lemma WordRangeOfBounds(videoLength: string, lo: int, hi: int)
    requires LengthBounds(videoLength) == Some((lo, hi))
    ensures WordRange(videoLength) == Done((lo * WordsPerMinute, hi * WordsPerMinute))
  {
  }

  /** A single number without a dash fails on the second piece. */
  lemma WordRangeWithoutDash(videoLength: string)
    requires '-' !in videoLength && PyInt(videoLength).Some?
    ensures WordRange(videoLength) == Raises(IndexError)
  {
    NotInFree(videoLength, "-");
  }

  /** Every preset yields a word range whose lower end is below its upper end. */
  lemma PresetWordRanges()
    ensures forall topic :: topic in ContentConfigs ==>
      && WordRange(ContentConfigs[topic].videoLength).Done?
      && WordRange(ContentConfigs[topic].videoLength).value.0 < WordRange(ContentConfigs[topic].videoLength).value.1
  {
    PresetLengthsWellFormed();
    forall topic | topic in ContentConfigs
      ensures WordRange(ContentConfigs[topic].videoLength).Done?
      ensures WordRange(ContentConfigs[topic].videoLength).value.0 < WordRange(ContentConfigs[topic].videoLength).value.1
    {
      var b := LengthBounds(ContentConfigs[topic].videoLength).value;
      WordRangeOfBounds(ContentConfigs[topic].videoLength, b.0, b.1);
    }
  }

  // --------------------------------------------------------------- variants

  /** The prompt for one variant. */
  function PromptFor(ctx: ScriptContext, range: (int, int), t: VariantTemplate): Prompt {
    ScriptPrompt(ctx, t, range.0, range.1)
  }

  /** The variants whose LLM call succeeded, in template order; a failed call adds nothing. */
  function VariantsFrom(ctx: ScriptContext, range: (int, int), ts: seq<VariantTemplate>, llm: Llm): (v: seq<ScriptVariant>)
    ensures |v| <= |ts|
  {
    if ts == [] then []
    else
      var last := ts[|ts| - 1];
      VariantsFrom(ctx, range, ts[..|ts| - 1], llm) +
        match llm(PromptFor(ctx, range, last))
        case Err(_) => []
        case Ok(content) => [ScriptVariant(last.name, last.description, content, |Words(content)|)]
  }

  function VariantName(v: ScriptVariant): string {
    v.variantName
  }

  function TemplateName(t: VariantTemplate): string {
    t.name
  }

  /**
   * Each variant is the reply to one template's prompt: its name and description come
   * from that template, its script is the reply and its word count the number of words.
   */
  lemma {:induction false} VariantsFromTemplates(ctx: ScriptContext, range: (int, int), ts: seq<VariantTemplate>, llm: Llm, i: nat)
    requires i < |VariantsFrom(ctx, range, ts, llm)|
    ensures var v := VariantsFrom(ctx, range, ts, llm)[i];
      exists k :: 0 <= k < |ts| && v.variantName == ts[k].name && v.description == ts[k].description
        && llm(PromptFor(ctx, range, ts[k])) == Ok(v.script) && v.wordCount == |Words(v.script)|
  {
    var init := ts[..|ts| - 1];
    var before := VariantsFrom(ctx, range, init, llm);
    if i < |before| {
      VariantsFromTemplates(ctx, range, init, llm, i);
      var k :| 0 <= k < |init| && before[i].variantName == init[k].name && before[i].description == init[k].description
        && llm(PromptFor(ctx, range, init[k])) == Ok(before[i].script) && before[i].wordCount == |Words(before[i].script)|;
      assert init[k] == ts[k];
    } else {
      assert VariantsFrom(ctx, range, ts, llm)[i] == VariantsFrom(ctx, range, ts, llm)[|before|];
    }
  }

  /** Variants keep the order of their templates: a later variant comes from a later template. */
  lemma {:induction false} VariantsInTemplateOrder(ctx: ScriptContext, range: (int, int), ts: seq<VariantTemplate>, llm: Llm,
                                                   i: nat, j: nat)
    returns (a: nat, b: nat)
    requires i < j < |VariantsFrom(ctx, range, ts, llm)|
    ensures a < b < |ts|
    ensures VariantsFrom(ctx, range, ts, llm)[i].variantName == ts[a].name
    ensures VariantsFrom(ctx, range, ts, llm)[j].variantName == ts[b].name
  {
    var init := ts[..|ts| - 1];
    var before := VariantsFrom(ctx, range, init, llm);
    assert VariantsFrom(ctx, range, ts, llm)[..|before|] == before;
    if j < |before| {
      a, b := VariantsInTemplateOrder(ctx, range, init, llm, i, j);
      assert init[a] == ts[a] && init[b] == ts[b];
    } else {
      VariantsFromTemplates(ctx, range, init, llm, i);
      var k :| 0 <= k < |init| && before[i].variantName == init[k].name;
      assert init[k] == ts[k];
      a, b := k, |ts| - 1;
    }
  }

  /** Templates with distinct names give variants with distinct names, each a template's name. */
  lemma {:induction false} VariantNamesDistinct(ctx: ScriptContext, range: (int, int), ts: seq<VariantTemplate>, llm: Llm)
    requires NoDuplicates(MapSeq(ts, TemplateName))
    ensures NoDuplicates(MapSeq(VariantsFrom(ctx, range, ts, llm), VariantName))
    ensures forall x :: x in MapSeq(VariantsFrom(ctx, range, ts, llm), VariantName) ==> x in MapSeq(ts, TemplateName)
  {
    if ts != [] {
      var init := ts[..|ts| - 1];
      var last := ts[|ts| - 1];
      var names := MapSeq(ts, TemplateName);
      var initNames := MapSeq(init, TemplateName);
      assert init + [last] == ts;
      MapSeqAppend(init, [last], TemplateName);
      assert names == initNames + [last.name];
      assert NoDuplicates(initNames) by {
        forall i, j | 0 <= i < j < |initNames| ensures initNames[i] != initNames[j] {
          assert initNames[i] == names[i] && initNames[j] == names[j];
        }
      }
      assert last.name !in initNames by {
        forall i | 0 <= i < |initNames| ensures initNames[i] != last.name {
          assert initNames[i] == names[i] && names[|ts| - 1] == last.name;
        }
      }
      VariantNamesDistinct(ctx, range, init, llm);
      var before := VariantsFrom(ctx, range, init, llm);
      var vb := MapSeq(before, VariantName);
      match llm(PromptFor(ctx, range, last))
      case Err(_) =>
        assert VariantsFrom(ctx, range, ts, llm) == before + [] == before;
      case Ok(c) =>
        var v := ScriptVariant(last.name, last.description, c, |Words(c)|);
        assert VariantsFrom(ctx, range, ts, llm) == before + [v];
        MapSeqAppend(before, [v], VariantName);
        assert MapSeq(VariantsFrom(ctx, range, ts, llm), VariantName) == vb + [last.name];
        NoDuplicatesSnoc(vb, last.name);
    }
  }

  /**
   * A template whose call succeeds gives a variant of its name whatever the other calls
   * do; the variant's script is the reply.
   */
  lemma {:induction false} SucceededCallKept(ctx: ScriptContext, range: (int, int), ts: seq<VariantTemplate>, llm: Llm,
                                             k: nat)
    returns (i: nat)
    requires k < |ts| && llm(PromptFor(ctx, range, ts[k])).Ok?
    ensures i < |VariantsFrom(ctx, range, ts, llm)|
    ensures VariantsFrom(ctx, range, ts, llm)[i].variantName == ts[k].name
    ensures Ok(VariantsFrom(ctx, range, ts, llm)[i].script) == llm(PromptFor(ctx, range, ts[k]))
  {
    var init := ts[..|ts| - 1];
    var before := VariantsFrom(ctx, range, init, llm);
    if k < |init| {
      assert init[k] == ts[k];
      i := SucceededCallKept(ctx, range, init, llm, k);
      assert VariantsFrom(ctx, range, ts, llm)[i] == before[i];
    } else {
      i := |before|;
    }
  }

  /**
   * With distinct template names, a template's name is among the variants' names exactly
   * when its call succeeds: a failed call drops its own variant and no other.
   */
  lemma VariantPresentIff(ctx: ScriptContext, range: (int, int), ts: seq<VariantTemplate>, llm: Llm, k: nat)
    requires NoDuplicates(MapSeq(ts, TemplateName)) && k < |ts|
    ensures (ts[k].name in MapSeq(VariantsFrom(ctx, range, ts, llm), VariantName))
      <==> llm(PromptFor(ctx, range, ts[k])).Ok?
  {
    var v := VariantsFrom(ctx, range, ts, llm);
    var names := MapSeq(v, VariantName);
    if llm(PromptFor(ctx, range, ts[k])).Ok? {
      var i := SucceededCallKept(ctx, range, ts, llm, k);
      assert names[i] == ts[k].name;
    } else if ts[k].name in names {
      var i :| 0 <= i < |names| && names[i] == ts[k].name;
      VariantsFromTemplates(ctx, range, ts, llm, i);
      assert false;
    }
  }

  /** When every call succeeds, each template gives its variant, in order. */
  lemma {:induction false} AllCallsSucceed(ctx: ScriptContext, range: (int, int), ts: seq<VariantTemplate>, llm: Llm)
    requires forall k :: 0 <= k < |ts| ==> llm(PromptFor(ctx, range, ts[k])).Ok?
    ensures |VariantsFrom(ctx, range, ts, llm)| == |ts|
    ensures forall k :: 0 <= k < |ts| ==> VariantsFrom(ctx, range, ts, llm)[k].variantName == ts[k].name
  {
    if ts != [] {
      var init := ts[..|ts| - 1];
      assert forall k :: 0 <= k < |init| ==> init[k] == ts[k];
      AllCallsSucceed(ctx, range, init, llm);
    }
  }

  /** When every call fails, no variant is produced. */
  lemma {:induction false} AllCallsFail(ctx: ScriptContext, range: (int, int), ts: seq<VariantTemplate>, llm: Llm)
    requires forall k :: 0 <= k < |ts| ==> llm(PromptFor(ctx, range, ts[k])).Err?
    ensures VariantsFrom(ctx, range, ts, llm) == []
  {
    if ts != [] {
      var init := ts[..|ts| - 1];
      assert forall k :: 0 <= k < |init| ==> init[k] == ts[k];
      AllCallsFail(ctx, range, init, llm);
    }
  }

  /** The three templates used. */
  function GeneratedTemplates(): seq<VariantTemplate> {
    ScriptVariants[..MaxGeneratedVariants]
  }

  /** What the stage stores in `script_variants`, or the exception that escapes it. */
  function ScriptsOutcome(topic: string, cfg: TopicConfig, hashtags: seq<string>, sentiment: map<string, Json>,
                          competitor: Json, recs: seq<TweetRecord>, media: seq<MediaSuggestion>, llm: Llm)
    : Outcome<seq<ScriptVariant>>
  {
    match ContextOf(topic, cfg, hashtags, sentiment, competitor, recs, media)
    case Raises(e) => Raises(e)
    case Done(ctx) =>
      match WordRange(cfg.videoLength)
      case Raises(e) => Raises(e)
      case Done(range) => Done(VariantsFrom(ctx, range, GeneratedTemplates(), llm))
  }

  /**
   * At most three variants, with distinct names among "Hook-Heavy", "Story-Driven" and
   * "Analytical"; all three, in that order, when no call fails; and each template's
   * variant is there exactly when its own call succeeds, whatever the other calls do.
   */
  lemma GeneratedVariants(topic: string, cfg: TopicConfig, hashtags: seq<string>, sentiment: map<string, Json>,
                          competitor: Json, recs: seq<TweetRecord>, media: seq<MediaSuggestion>, llm: Llm)
    requires ScriptsOutcome(topic, cfg, hashtags, sentiment, competitor, recs, media, llm).Done?
    ensures var v := ScriptsOutcome(topic, cfg, hashtags, sentiment, competitor, recs, media, llm).value;
      && |v| <= MaxGeneratedVariants
      && NoDuplicates(MapSeq(v, VariantName))
      && forall i :: 0 <= i < |v| ==> v[i].variantName in ["Hook-Heavy", "Story-Driven", "Analytical"]
    ensures var ctx := ContextOf(topic, cfg, hashtags, sentiment, competitor, recs, media).value;
      var range := WordRange(cfg.videoLength).value;
      (forall k :: 0 <= k < MaxGeneratedVariants ==> llm(PromptFor(ctx, range, GeneratedTemplates()[k])).Ok?) ==>
        MapSeq(ScriptsOutcome(topic, cfg, hashtags, sentiment, competitor, recs, media, llm).value, VariantName)
          == ["Hook-Heavy", "Story-Driven", "Analytical"]
    ensures var ctx := ContextOf(topic, cfg, hashtags, sentiment, competitor, recs, media).value;
      var range := WordRange(cfg.videoLength).value;
      forall k :: 0 <= k < MaxGeneratedVariants ==>
        ((GeneratedTemplates()[k].name in MapSeq(ScriptsOutcome(topic, cfg, hashtags, sentiment, competitor, recs, media, llm).value, VariantName))
          <==> llm(PromptFor(ctx, range, GeneratedTemplates()[k])).Ok?)
  {
    var ctx := ContextOf(topic, cfg, hashtags, sentiment, competitor, recs, media).value;
    var range := WordRange(cfg.videoLength).value;
    assert ScriptsOutcome(topic, cfg, hashtags, sentiment, competitor, recs, media, llm).value
      == VariantsFrom(ctx, range, GeneratedTemplates(), llm);
    TemplateVariants(ctx, range, llm);
    TemplatePresence(ctx, range, llm);
    GeneratedTemplateNames();
  }

  /** GeneratedVariants for a given context and word range, in terms of the templates' names. */
  lemma TemplateVariants(ctx: ScriptContext, range: (int, int), llm: Llm)
    ensures var v := VariantsFrom(ctx, range, GeneratedTemplates(), llm);
      && |v| <= MaxGeneratedVariants
      && NoDuplicates(MapSeq(v, VariantName))
      && forall i :: 0 <= i < |v| ==> v[i].variantName in MapSeq(GeneratedTemplates(), TemplateName)
    ensures (forall k :: 0 <= k < MaxGeneratedVariants ==> llm(PromptFor(ctx, range, GeneratedTemplates()[k])).Ok?) ==>
      MapSeq(VariantsFrom(ctx, range, GeneratedTemplates(), llm), VariantName) == MapSeq(GeneratedTemplates(), TemplateName)
  {
    var ts := GeneratedTemplates();
    var v := VariantsFrom(ctx, range, ts, llm);
    GeneratedTemplateNames();
    VariantNamesDistinct(ctx, range, ts, llm);
    forall i | 0 <= i < |v| ensures v[i].variantName in MapSeq(ts, TemplateName) {
      assert MapSeq(v, VariantName)[i] == v[i].variantName;
    }
    if forall k :: 0 <= k < MaxGeneratedVariants ==> llm(PromptFor(ctx, range, ts[k])).Ok? {
      AllCallsSucceed(ctx, range, ts, llm);
    }
  }

  /** Each of the three templates' names is among the variants' exactly when its own call succeeds. */
  lemma TemplatePresence(ctx: ScriptContext, range: (int, int), llm: Llm)
    ensures forall k :: 0 <= k < MaxGeneratedVariants ==>
      ((GeneratedTemplates()[k].name in MapSeq(VariantsFrom(ctx, range, GeneratedTemplates(), llm), VariantName))
        <==> llm(PromptFor(ctx, range, GeneratedTemplates()[k])).Ok?)
  {
    var ts := GeneratedTemplates();
    GeneratedTemplateNames();
    forall k | 0 <= k < MaxGeneratedVariants
      ensures (ts[k].name in MapSeq(VariantsFrom(ctx, range, ts, llm), VariantName)) <==> llm(PromptFor(ctx, range, ts[k])).Ok?
    {
      VariantPresentIff(ctx, range, ts, llm, k);
    }
  }

  /** The three templates used are "Hook-Heavy", "Story-Driven" and "Analytical", in that order. */
  lemma GeneratedTemplateNames()
    ensures |GeneratedTemplates()| == MaxGeneratedVariants
    ensures MapSeq(GeneratedTemplates(), TemplateName) == ["Hook-Heavy", "Story-Driven", "Analytical"]
    ensures NoDuplicates(MapSeq(GeneratedTemplates(), TemplateName))
  {
    VariantOrder();
  }

  // ------------------------------------------------------------------ stage

  /** The variant loop, from the given word range on. */
  method GenerateVariants(ctx: ScriptContext, range: (int, int), ts: seq<VariantTemplate>, llm: Llm)
    returns (variants: seq<ScriptVariant>)
    ensures variants == VariantsFrom(ctx, range, ts, llm)
  {
    variants := [];
    var i := 0;
    while i < |ts|
      invariant 0 <= i <= |ts|
      invariant variants == VariantsFrom(ctx, range, ts[..i], llm)
    {
      var t := ts[i];
      assert ts[..i + 1][..i] == ts[..i];
      var response := llm(PromptFor(ctx, range, t));
      if response.Ok? {
        variants := variants + [ScriptVariant(t.name, t.description, response.value, |Words(response.value)|)];
      } else {
        assert variants + [] == variants;
      }
      i := i + 1;
    }
    assert ts[..|ts|] == ts;
  }

  /**
   * generate_multiple_script_variants. With an error set nothing happens; otherwise
   * only `script_variants` is written, as ScriptsOutcome says, or the exception
   * escapes and nothing is written.
   */
  method GenerateScripts(st: PipelineState, llm: Llm) returns (escape: Option<Uncaught>)
    modifies st`scriptVariants
    ensures old(st.error).Some? ==> unchanged(st) && escape.None?
    ensures escape.Some? ==> old(st.error).None? && unchanged(st)
    ensures old(st.error).None? ==>
      match ScriptsOutcome(st.topic, st.config, st.trendingHashtags, st.sentimentAnalysis, st.competitorAnalysis,
                           MapSeq(st.filteredTweets, Rec), st.mediaSuggestions, llm)
      case Done(v) => escape.None? && st.scriptVariants == v
      case Raises(e) => escape == Some(e) && unchanged(st)
  {
    if st.error.Some? {
      return None;
    }
    var recs := MapSeq(st.filteredTweets, Rec);
    var context := ContextOf(st.topic, st.config, st.trendingHashtags, st.sentimentAnalysis, st.competitorAnalysis,
                             recs, st.mediaSuggestions);
    if context.Raises? {
      return Some(context.exc);
    }
    // The word range is computed inside the loop, so it raises on the first template.
    var range := WordRange(st.config.videoLength);
    if range.Raises? {
      return Some(range.exc);
    }
    var variants := GenerateVariants(context.value, range.value, GeneratedTemplates(), llm);
    st.scriptVariants := variants;
    return None;
  }
}
