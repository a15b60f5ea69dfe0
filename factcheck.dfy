/**
 * Fact-checking: the first ten quality tweets whose lower-cased text holds a claim
 * indicator become claims, the first five go to the LLM, and each verdict of its
 * parsed reply is attached, by tweet id, to every quality tweet with that id.
 */
module FactCheck {
  import opened Wrappers
  import opened Seqs
  import opened Sorting
  import opened Text
  import opened JsonValues
  import opened Records
  import opened Services
  import opened State

  const Indicators: seq<string> := ["breaking:", "report:", "sources:", "confirmed:", "%", "first time", "record"]
  const MaxClaimTweets: nat := 10
  const MaxPromptClaims: nat := 5
  const TweetIdKey: string := "tweet_id"

  // ----------------------------------------------------------------- claims

  /** `any(indicator in text.lower() for indicator in [...])`. */
  predicate NeedsCheck(r: TweetRecord) {
    exists i :: 0 <= i < |Indicators| && Contains(Lower(r.text), Indicators[i])
  }

  function ClaimOf(r: TweetRecord): Claim {
    Claim(r.id, r.text, r.authorUsername, r.totalEngagement)
  }

  /** `claims_to_check` for the given records. */
  function Claims(recs: seq<TweetRecord>): seq<Claim> {
    MapSeq(Filter(recs, NeedsCheck), ClaimOf)
  }

  /** The claims are exactly the records holding an indicator: each claim comes from one, and each gives one. */
  lemma ClaimsExactly(recs: seq<TweetRecord>)
    ensures forall i :: 0 <= i < |Claims(recs)| ==>
      exists r :: r in recs && NeedsCheck(r) && Claims(recs)[i] == ClaimOf(r)
    ensures forall r :: r in recs && NeedsCheck(r) ==> ClaimOf(r) in Claims(recs)
  {
    var kept := Filter(recs, NeedsCheck);
    forall i | 0 <= i < |Claims(recs)|
      ensures exists r :: r in recs && NeedsCheck(r) && Claims(recs)[i] == ClaimOf(r)
    {
      assert Claims(recs)[i] == ClaimOf(kept[i]);
    }
    forall r | r in recs && NeedsCheck(r) ensures ClaimOf(r) in Claims(recs) {
      var k :| 0 <= k < |recs| && recs[k] == r;
      assert r in kept;
      var m :| 0 <= m < |kept| && kept[m] == r;
      assert Claims(recs)[m] == ClaimOf(r);
    }
  }

  /** Claims keep the order of their tweets. */
  lemma ClaimsInOrder(recs: seq<TweetRecord>, i: nat, j: nat)
    requires i < j < |Claims(recs)|
    ensures exists a, b :: 0 <= a < b < |recs| && Claims(recs)[i] == ClaimOf(recs[a]) && Claims(recs)[j] == ClaimOf(recs[b])
  {
    FilterKeepsOrder(recs, NeedsCheck, i, j);
  }

  /** The claims of the stage: from the first ten quality tweets only. */
  function StageClaims(filtered: seq<Tweet>): seq<Claim> {
    Claims(MapSeq(Take(filtered, MaxClaimTweets), Rec))
  }

  // --------------------------------------------------------------- verdicts

  /** Python's `tweet['id'] == key` for an integer id: ints, floats and bools compare by value. */
  predicate KeyMatches(key: Json, id: nat) {
    match key
    case JInt(i) => i == id
    case JFloat(r) => r == id as real
    case JBool(b) => (if b then 1 else 0) == id
    case _ => false
  }

  /** Lists and dicts cannot be dict keys. */
  predicate Hashable(j: Json) {
    !j.JArr? && !j.JObj?
  }

  /**
   * `{fc['tweet_id']: fc for fc in results}` as its (key, value) pairs in insertion
   * order, or `None` where building it raises: an element that is not a dict with a
   * hashable "tweet_id", or a value that is not iterable. Iterating a non-empty dict or
   * string yields strings, which cannot be indexed by a string.
   */
  function VerdictPairs(results: Json): Option<seq<(Json, Json)>> {
    match results
    case JArr(items) =>
      if forall i :: 0 <= i < |items| ==>
          items[i].JObj? && TweetIdKey in items[i].fields && Hashable(items[i].fields[TweetIdKey])
      then Some(seq(|items|, i requires 0 <= i < |items| && items[i].JObj? && TweetIdKey in items[i].fields =>
                  (items[i].fields[TweetIdKey], items[i])))
      else None
    case JObj(f) => if f == map[] then Some([]) else None
    case JStr(s) => if s == "" then Some([]) else None
    case _ => None
  }

  /** `fact_check_map[id]` when `id in fact_check_map`: the last verdict whose key equals the id. */
  function VerdictFor(pairs: seq<(Json, Json)>, id: nat): (v: Option<Json>)
    ensures v.Some? <==> exists i :: 0 <= i < |pairs| && KeyMatches(pairs[i].0, id)
  {
    if pairs == [] then None
    else
      var init := pairs[..|pairs| - 1];
      assert forall i :: 0 <= i < |init| ==> init[i] == pairs[i];
      if KeyMatches(pairs[|pairs| - 1].0, id) then Some(pairs[|pairs| - 1].1) else VerdictFor(init, id)
  }

  /** With duplicate ids the verdict that comes last wins. */
  lemma {:induction false} VerdictLastWins(pairs: seq<(Json, Json)>, id: nat, i: nat)
    requires i < |pairs| && KeyMatches(pairs[i].0, id)
    requires forall j :: i < j < |pairs| ==> !KeyMatches(pairs[j].0, id)
    ensures VerdictFor(pairs, id) == Some(pairs[i].1)
  {
    if i < |pairs| - 1 {
      var init := pairs[..|pairs| - 1];
      VerdictLastWins(init, id, i);
    }
  }

  /** A tweet's `fact_check` after the stage: the matching verdict if the map was built, else as before. */
  function FactCheckAfter(prior: Option<Json>, pairs: Option<seq<(Json, Json)>>, id: nat): Option<Json> {
    if pairs.Some? && VerdictFor(pairs.value, id).Some? then VerdictFor(pairs.value, id) else prior
  }

  // ------------------------------------------------------------------ stage

  /** How the LLM round went: not made (no claims), failed (LLM or parse), or the parsed reply. */
  datatype FactCheckRun = NotRun | RunFailed | Parsed(results: Json)

  function FactCheckRunOf(claims: seq<Claim>, llm: Llm, parse: JsonParser): FactCheckRun {
    if claims == [] then NotRun
    else
      match llm(FactCheckPrompt(Take(claims, MaxPromptClaims)))
      case Err(_) => RunFailed
      case Ok(content) =>
        match parse(ExtractJsonText(content))
        case Err(_) => RunFailed
        case Ok(j) => Parsed(j)
  }

  /** `fact_check_results`: the parsed reply even when building the map then fails, otherwise []. */
  function ResultsOf(run: FactCheckRun): Json {
    if run.Parsed? then run.results else EmptyList
  }

  function PairsOf(run: FactCheckRun): Option<seq<(Json, Json)>> {
    if run.Parsed? then VerdictPairs(run.results) else None
  }

  /** Without claims, or when the LLM round fails, the results are [] and no tweet changes. */
  lemma NoVerdictsWithoutParse(claims: seq<Claim>, llm: Llm, parse: JsonParser, prior: Option<Json>, id: nat)
    requires !FactCheckRunOf(claims, llm, parse).Parsed?
    ensures ResultsOf(FactCheckRunOf(claims, llm, parse)) == EmptyList
    ensures FactCheckAfter(prior, PairsOf(FactCheckRunOf(claims, llm, parse)), id) == prior
  {
  }

  /** Without claims the LLM is never consulted. */
  lemma NoClaimsNoLlm(llm1: Llm, parse1: JsonParser, llm2: Llm, parse2: JsonParser)
    ensures FactCheckRunOf([], llm1, parse1) == FactCheckRunOf([], llm2, parse2) == NotRun
  {
  }

  /** Only the first five claims reach the LLM: claim lists that agree on them fare the same. */
  lemma OnlyFirstFiveMatter(c1: seq<Claim>, c2: seq<Claim>, llm: Llm, parse: JsonParser)
    requires c1 != [] && c2 != [] && Take(c1, MaxPromptClaims) == Take(c2, MaxPromptClaims)
    ensures FactCheckRunOf(c1, llm, parse) == FactCheckRunOf(c2, llm, parse)
  {
  }

  /** One more tweet adds its claim, when it holds an indicator. */
  lemma ClaimsStep(top: seq<Tweet>, i: nat)
    requires i < |top|
    ensures Claims(MapSeq(top[..i + 1], Rec))
      == Claims(MapSeq(top[..i], Rec)) + (if NeedsCheck(top[i].rec) then [ClaimOf(top[i].rec)] else [])
  {
    var recs := MapSeq(top[..i + 1], Rec);
    MapSeqPrefix(top, Rec, i);
    assert recs[..i] == MapSeq(top[..i], Rec);
    FilterPrefix(recs, NeedsCheck, i);
    assert recs[..i + 1] == recs;
    MapSeqAppend(Filter(recs[..i], NeedsCheck), if NeedsCheck(top[i].rec) then [top[i].rec] else [], ClaimOf);
  }

  /** The loop over the top ten: claims collected in order. */
  method CollectClaims(top: seq<Tweet>) returns (claims: seq<Claim>)
    ensures claims == Claims(MapSeq(top, Rec))
  {
    claims := [];
    var i := 0;
    while i < |top|
      invariant 0 <= i <= |top|
      invariant claims == Claims(MapSeq(top[..i], Rec))
    {
      var tweet := top[i];
      ClaimsStep(top, i);
      if NeedsCheck(tweet.rec) {
        claims := claims + [ClaimOf(tweet.rec)];
      }
      i := i + 1;
    }
    assert top[..|top|] == top;
  }

  /**
   * fact_check_claims. With an error set or no quality tweets nothing happens.
   * Otherwise `fact_check_results` is the parsed reply or [], a quality tweet (any of
   * them, not only the top ten) gains the verdict for its id when the map could be
   * built, and `error` is never written.
   */
  method FactCheckClaims(st: PipelineState, llm: Llm, parse: JsonParser)
    modifies st`factCheckResults, (set t | t in st.filteredTweets)`factCheck
    ensures old(st.error).Some? || old(st.filteredTweets) == [] ==>
      unchanged(st) && unchanged(st.filteredTweets)
    ensures old(st.error).None? && old(st.filteredTweets) != [] ==>
      var run := FactCheckRunOf(StageClaims(st.filteredTweets), llm, parse);
      && st.factCheckResults == ResultsOf(run)
      && forall t :: t in st.filteredTweets ==> t.factCheck == FactCheckAfter(old(t.factCheck), PairsOf(run), t.rec.id)
  {
    if st.error.Some? || st.filteredTweets == [] {
      return;
    }
    var claims := CollectClaims(Take(st.filteredTweets, MaxClaimTweets));
    ghost var run := FactCheckRunOf(claims, llm, parse);
    var results := EmptyList;
    if claims != [] {
      var response := llm(FactCheckPrompt(Take(claims, MaxPromptClaims)));
      if response.Ok? {
        var parsed := parse(ExtractJsonText(response.value));
        if parsed.Ok? {
          results := parsed.value;
          var pairs := VerdictPairs(results);
          if pairs.Some? {
            AttachVerdicts(st.filteredTweets, pairs.value);
          }
        }
      }
    }
    st.factCheckResults := results;
  }

  /** The loop `for tweet in filtered_tweets: if tweet['id'] in fact_check_map: ...`. */
  method AttachVerdicts(tweets: seq<Tweet>, pairs: seq<(Json, Json)>)
    modifies (set t | t in tweets)`factCheck
    ensures forall t :: t in tweets ==> t.factCheck == FactCheckAfter(old(t.factCheck), Some(pairs), t.rec.id)
  {
    var i := 0;
    while i < |tweets|
      invariant 0 <= i <= |tweets|
      invariant forall t :: t in tweets[..i] ==> t.factCheck == FactCheckAfter(old(t.factCheck), Some(pairs), t.rec.id)
      invariant forall t :: t in tweets && t !in tweets[..i] ==> t.factCheck == old(t.factCheck)
    {
      var tweet := tweets[i];
      var verdict := VerdictFor(pairs, tweet.rec.id);
      if verdict.Some? {
        tweet.factCheck := verdict;
      }
      assert tweets[..i + 1] == tweets[..i] + [tweet];
      i := i + 1;
    }
    assert tweets[..|tweets|] == tweets;
  }
}
