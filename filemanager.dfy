/**
 * The deliverable: the final output package compiled from the state, and the names
 * under which the script variants are saved.
 */
module FileManager {
  import opened Wrappers
  import opened Seqs
  import opened Text
  import opened JsonValues
  import opened Constants
  import opened Records
  import opened State
  import Sentiment
  import Scripts

  const MaxTalkingPoints: nat := 5
  const MaxOutputTweets: nat := 20
  const ScriptPrefix: string := "script_"
  const ScriptSuffix: string := ".txt"

  // ---------------------------------------------------------------- compile

  /**
   * The `final_output` dict, its entries evaluated in order: `key_talking_points`
   * raises TypeError where the trending topics cannot be sliced, then `unique_angles`
   * raises AttributeError where the competitor analysis is not a dict. The clock's
   * reading is the parameter `generatedAt`.
   */
  function Compile(topic: string, cfg: TopicConfig, hashtags: seq<string>, raw: seq<Tweet>, filtered: seq<Tweet>,
                   sentiment: map<string, Json>, competitor: Json, factChecks: Json,
                   variants: seq<ScriptVariant>, media: seq<MediaSuggestion>, generatedAt: string): Outcome<FinalOutput>
  {
    match Slice(Get(sentiment, Sentiment.TrendingTopicsKey, EmptyList), MaxTalkingPoints)
    case None => Raises(TypeError)
    case Some(points) =>
      if !competitor.JObj? then Raises(AttributeError)
      else
        Done(FinalOutput(topic, generatedAt, cfg, hashtags, |raw|, |filtered|, sentiment, competitor, factChecks,
          variants, media, Take(filtered, MaxOutputTweets),
          if variants == [] then None else Some(variants[0].variantName),
          points, Get(competitor.fields, Scripts.UniqueAnglesKey, EmptyList)))
  }

  /**
   * The package reports the counts of raw and quality tweets, the first twenty quality
   * tweets, and the first variant's name as the best one exactly when there is a variant.
   */
  lemma CompileShape(topic: string, cfg: TopicConfig, hashtags: seq<string>, raw: seq<Tweet>, filtered: seq<Tweet>,
                     sentiment: map<string, Json>, competitor: Json, factChecks: Json,
                     variants: seq<ScriptVariant>, media: seq<MediaSuggestion>, generatedAt: string)
    requires Compile(topic, cfg, hashtags, raw, filtered, sentiment, competitor, factChecks, variants, media, generatedAt).Done?
    ensures var out := Compile(topic, cfg, hashtags, raw, filtered, sentiment, competitor, factChecks, variants, media, generatedAt).value;
      && out.tweetsAnalyzed == |raw| && out.qualityTweets == |filtered|
      && |out.topTweets| == Min(MaxOutputTweets, |filtered|)
      && (forall i :: 0 <= i < |out.topTweets| ==> out.topTweets[i] == filtered[i])
      && (out.bestVariant.Some? <==> variants != [])
      && (variants != [] ==> out.bestVariant.value == variants[0].variantName)
      && out.scriptVariants == variants && out.mediaSuggestions == media && out.generatedAt == generatedAt
  {
  }

  /** Compiling at two moments gives packages that differ in the timestamp only. */
  lemma CompileOnlyTimestampDiffers(topic: string, cfg: TopicConfig, hashtags: seq<string>, raw: seq<Tweet>, filtered: seq<Tweet>,
                                    sentiment: map<string, Json>, competitor: Json, factChecks: Json,
                                    variants: seq<ScriptVariant>, media: seq<MediaSuggestion>, g1: string, g2: string)
    ensures var o1 := Compile(topic, cfg, hashtags, raw, filtered, sentiment, competitor, factChecks, variants, media, g1);
      var o2 := Compile(topic, cfg, hashtags, raw, filtered, sentiment, competitor, factChecks, variants, media, g2);
      && o1.Done? == o2.Done?
      && (o1.Done? ==> o1.value.(generatedAt := g2) == o2.value)
      && (o1.Raises? ==> o1.exc == o2.exc)
  {
  }

  /** After a failed sentiment analysis there are no talking points. */
  lemma NoTalkingPointsAfterFailedAnalysis(topic: string, cfg: TopicConfig, hashtags: seq<string>, raw: seq<Tweet>,
                                           filtered: seq<Tweet>, msg: string, f: map<string, Json>, factChecks: Json,
                                           variants: seq<ScriptVariant>, media: seq<MediaSuggestion>, generatedAt: string)
    ensures Compile(topic, cfg, hashtags, raw, filtered, ErrorMarker(msg), JObj(f), factChecks, variants, media, generatedAt).Done?
    ensures Compile(topic, cfg, hashtags, raw, filtered, ErrorMarker(msg), JObj(f), factChecks, variants, media, generatedAt)
      .value.keyTalkingPoints == EmptyList
  {
    assert Sentiment.TrendingTopicsKey !in ErrorMarker(msg);
  }

  /**
   * compile_final_output. With an error set nothing happens; otherwise only
   * `final_output` is written, as Compile says, or the exception escapes and nothing
   * is written.
   */
  method CompileFinalOutput(st: PipelineState, generatedAt: string) returns (escape: Option<Uncaught>)
    modifies st`finalOutput
    ensures old(st.error).Some? ==> unchanged(st) && escape.None?
    ensures old(st.error).None? ==>
      match Compile(st.topic, st.config, st.trendingHashtags, st.rawTweets, st.filteredTweets, st.sentimentAnalysis,
                    st.competitorAnalysis, st.factCheckResults, st.scriptVariants, st.mediaSuggestions, generatedAt)
      case Done(out) => escape.None? && st.finalOutput == Some(out)
      case Raises(e) => escape == Some(e) && unchanged(st)
  {
    if st.error.Some? {
      return None;
    }
    var out := Compile(st.topic, st.config, st.trendingHashtags, st.rawTweets, st.filteredTweets, st.sentimentAnalysis,
                       st.competitorAnalysis, st.factCheckResults, st.scriptVariants, st.mediaSuggestions, generatedAt);
    if out.Raises? {
      return Some(out.exc);
    }
    st.finalOutput := Some(out.value);
    return None;
  }

  // ------------------------------------------------------------ file names

  /**
   * `name.lower().replace(' ', '_').replace('-', '_')`: the name lower-cased
   * character by character, with blanks and dashes turned into underscores.
   */
  function Slug(name: string): (s: string)
    ensures |s| == |name| && ' ' !in s && '-' !in s && IsLower(s)
    ensures forall i :: 0 <= i < |name| ==>
      s[i] == (if LowerChar(name[i]) == ' ' || LowerChar(name[i]) == '-' then '_' else LowerChar(name[i]))
  {
    ReplaceChar(ReplaceChar(Lower(name), ' ', '_'), '-', '_')
  }

  /** A slug is its own slug. */
  lemma SlugIdempotent(name: string)
    ensures Slug(Slug(name)) == Slug(name)
  {
    var s := Slug(name);
    forall i | 0 <= i < |s| ensures Slug(s)[i] == s[i] {
      assert LowerChar(s[i]) == s[i];
    }
  }

  /** `f"script_{i}_{slug}.txt"`. */
  function ScriptFileName(i: nat, name: string): string {
    ScriptPrefix + NatToString(i) + "_" + Slug(name) + ScriptSuffix
  }

  /** A decimal numeral followed by '_' is recovered from the string it starts. */
  lemma NumberBeforeUnderscore(i: nat, r1: string, j: nat, r2: string)
    requires NatToString(i) + "_" + r1 == NatToString(j) + "_" + r2
    ensures i == j
  {
    var ni := NatToString(i);
    var nj := NatToString(j);
    assert '_' !in ni by {
      forall k | 0 <= k < |ni| ensures ni[k] != '_' {
        assert IsDigit(ni[k]);
      }
    }
    assert '_' !in nj by {
      forall k | 0 <= k < |nj| ensures nj[k] != '_' {
        assert IsDigit(nj[k]);
      }
    }
    FirstOccurrenceAfter(ni, "_", r1);
    FirstOccurrenceAfter(nj, "_", r2);
    assert ni == nj;
    PyIntOfNatToString(i);
    PyIntOfNatToString(j);
  }

  /** Scripts saved at different positions get different file names, whatever their variant names. */
  lemma ScriptFileNamesDistinct(i: nat, a: string, j: nat, b: string)
    requires i != j
    ensures ScriptFileName(i, a) != ScriptFileName(j, b)
  {
    var x := NatToString(i) + "_" + (Slug(a) + ScriptSuffix);
    var y := NatToString(j) + "_" + (Slug(b) + ScriptSuffix);
    assert ScriptFileName(i, a) == ScriptPrefix + x;
    assert ScriptFileName(j, b) == ScriptPrefix + y;
    if ScriptFileName(i, a) == ScriptFileName(j, b) {
      assert x == (ScriptPrefix + x)[|ScriptPrefix|..] == (ScriptPrefix + y)[|ScriptPrefix|..] == y;
      NumberBeforeUnderscore(i, Slug(a) + ScriptSuffix, j, Slug(b) + ScriptSuffix);
    }
  }

  /** The script file names, numbered from 1 in variant order (`enumerate(script_variants, 1)`). */
  function ScriptFileNames(vs: seq<ScriptVariant>): (names: seq<string>)
    ensures |names| == |vs|
  {
    if vs == [] then []
    else ScriptFileNames(vs[..|vs| - 1]) + [ScriptFileName(|vs|, vs[|vs| - 1].variantName)]
  }

  /** Name i belongs to variant i and is numbered i + 1. */
  lemma {:induction false} ScriptFileNamesNumbered(vs: seq<ScriptVariant>)
    ensures forall i :: 0 <= i < |vs| ==> ScriptFileNames(vs)[i] == ScriptFileName(i + 1, vs[i].variantName)
  {
    if vs != [] {
      var init := vs[..|vs| - 1];
      ScriptFileNamesNumbered(init);
      assert forall i :: 0 <= i < |init| ==> init[i] == vs[i];
    }
  }

  /** No two scripts are saved under the same name, even when two variants share a name. */
  lemma ScriptFileNamesUnique(vs: seq<ScriptVariant>)
    ensures NoDuplicates(ScriptFileNames(vs))
  {
    ScriptFileNamesNumbered(vs);
    var names := ScriptFileNames(vs);
    forall i, j | 0 <= i < j < |names| ensures names[i] != names[j] {
      ScriptFileNamesDistinct(i + 1, vs[i].variantName, j + 1, vs[j].variantName);
    }
  }

  /**
   * The names under which save_outputs writes the scripts, variant by variant: none
   * when an error is set. The state is not changed.
   */
  method SaveScriptNames(st: PipelineState) returns (names: seq<string>)
    ensures st.error.Some? ==> names == []
    ensures st.error.None? ==> names == ScriptFileNames(st.scriptVariants)
  {
    names := [];
    if st.error.Some? {
      return;
    }
    var vs := st.scriptVariants;
    var i := 0;
    while i < |vs|
      invariant 0 <= i <= |vs|
      invariant names == ScriptFileNames(vs[..i])
    {
      assert vs[..i + 1][..i] == vs[..i];
      names := names + [ScriptFileName(i + 1, vs[i].variantName)];
      i := i + 1;
    }
    assert vs[..|vs|] == vs;
  }
}
