/**
 * Hashtag discovery: count the lower-cased hashtags of a recent search, rank them by
 * frequency (ties in first-seen order) and keep the top ten as "#tag".
 */
module Hashtags {
  import opened Wrappers
  import opened Seqs
  import opened Sorting
  import opened Text
  import opened Constants
  import opened Services
  import opened State

  const QuerySuffix: string := " -is:retweet lang:en"
  const HashtagErrorPrefix: string := "Error discovering hashtags: "
  const MaxTrending: nat := 10

  /** The search the stage sends: the preset's base query, no retweets, English. */
  function HashtagRequest(searchBase: string): SearchRequest {
    SearchRequest(searchBase + QuerySuffix, MaxTweetsPerRequest, DiscoveryFields)
  }

  /** Every hashtag of every tweet, lower-cased, in tweet order and then entity order. */
  function TagOccurrences(data: seq<ApiTweet>): (occ: seq<string>)
    ensures forall i :: 0 <= i < |occ| ==> IsLower(occ[i])
  {
    if data == [] then []
    else TagOccurrences(data[..|data| - 1]) + MapSeq(data[|data| - 1].hashtags, Lower)
  }

  /** How often a (lower-cased) tag occurs. */
  function TagCount(occ: seq<string>, tag: string): nat {
    multiset(occ)[tag]
  }

  /** The distinct tags by count, most frequent first; ties keep first-seen order. */
  function RankedTags(occ: seq<string>): seq<string> {
    SortDesc(Distinct(occ), (tag: string) => TagCount(occ, tag))
  }

  function AddHash(tag: string): (h: string)
    ensures |h| == |tag| + 1 && h[0] == '#' && h[1..] == tag
  {
    "#" + tag
  }

  /** `["#" + tag for tag, _ in trending[:10]]`. */
  function TrendingHashtags(data: seq<ApiTweet>): seq<string> {
    MapSeq(Take(RankedTags(TagOccurrences(data)), MaxTrending), AddHash)
  }

  /** The stage's outcome: the trending list, or the message of the exception. */
  function HashtagOutcome(cfg: TopicConfig, client: Client): Result<seq<string>> {
    match client(HashtagRequest(cfg.searchBase))
    case Err(m) => Err(m)
    case Ok(resp) => Ok(TrendingHashtags(resp.data))
  }

  /** At most ten entries, each "#" and a lower-cased tag that occurs, none repeated. */
  lemma TrendingShape(data: seq<ApiTweet>)
    ensures |TrendingHashtags(data)| <= MaxTrending
    ensures forall i :: 0 <= i < |TrendingHashtags(data)| ==>
      |TrendingHashtags(data)[i]| >= 1 && TrendingHashtags(data)[i][0] == '#'
      && TrendingHashtags(data)[i][1..] in TagOccurrences(data) && IsLower(TrendingHashtags(data)[i][1..])
    ensures NoDuplicates(TrendingHashtags(data))
  {
    var occ := TagOccurrences(data);
    var ranked := RankedTags(occ);
    var r := TrendingHashtags(data);
    RankedFacts(occ);
    forall i | 0 <= i < |r|
      ensures r[i][1..] in occ && IsLower(r[i][1..])
    {
      assert r[i][1..] == ranked[i];
      var m :| 0 <= m < |occ| && occ[m] == ranked[i];
    }
    forall i, j | 0 <= i < j < |r| ensures r[i] != r[j] {
      assert r[i][1..] == ranked[i] && r[j][1..] == ranked[j];
    }
  }

  /** The ranking lists tags that occur, none twice. */
  lemma RankedFacts(occ: seq<string>)
    ensures NoDuplicates(RankedTags(occ))
    ensures forall i :: 0 <= i < |RankedTags(occ)| ==> RankedTags(occ)[i] in occ
  {
    var d := Distinct(occ);
    var ranked := RankedTags(occ);
    SortDescPerm(d, (tag: string) => TagCount(occ, tag));
    PermutationNoDuplicates(d, ranked);
    forall i | 0 <= i < |ranked| ensures ranked[i] in occ {
      assert ranked[i] in multiset(d);
      var k :| 0 <= k < |d| && d[k] == ranked[i];
    }
  }

  /** Counts never increase along the list. */
  lemma TrendingOrdered(data: seq<ApiTweet>)
    ensures forall i, j :: 0 <= i < j < |TrendingHashtags(data)| ==>
      TagCount(TagOccurrences(data), TrendingHashtags(data)[i][1..])
      >= TagCount(TagOccurrences(data), TrendingHashtags(data)[j][1..])
  {
    var occ := TagOccurrences(data);
    var ranked := RankedTags(occ);
    var r := TrendingHashtags(data);
    SortDescFacts(Distinct(occ), (tag: string) => TagCount(occ, tag));
    forall i, j | 0 <= i < j < |r|
      ensures TagCount(occ, r[i][1..]) >= TagCount(occ, r[j][1..])
    {
      assert r[i][1..] == ranked[i] && r[j][1..] == ranked[j];
    }
  }

  /** Tags with equal counts appear in the order in which they were first seen. */
  lemma TrendingTies(data: seq<ApiTweet>, i: nat, j: nat)
    requires i < j < |TrendingHashtags(data)|
    requires TagCount(TagOccurrences(data), TrendingHashtags(data)[i][1..])
          == TagCount(TagOccurrences(data), TrendingHashtags(data)[j][1..])
    ensures TrendingHashtags(data)[i][1..] in TagOccurrences(data)
    ensures TrendingHashtags(data)[j][1..] in TagOccurrences(data)
    ensures FirstIndex(TagOccurrences(data), TrendingHashtags(data)[i][1..])
          < FirstIndex(TagOccurrences(data), TrendingHashtags(data)[j][1..])
  {
    var occ := TagOccurrences(data);
    var d := Distinct(occ);
    var key := (tag: string) => TagCount(occ, tag);
    var ranked := RankedTags(occ);
    var r := TrendingHashtags(data);
    assert r[i][1..] == ranked[i] && r[j][1..] == ranked[j];
    var a, b := TiesKeepOrder(d, key, i, j);
    DistinctInFirstOccurrenceOrder(occ, a, b);
  }

  /** A tag that occurs but is not listed is no more frequent than any listed one. */
  lemma TrendingAreTheMostFrequent(data: seq<ApiTweet>, tag: string)
    requires tag in TagOccurrences(data) && AddHash(tag) !in TrendingHashtags(data)
    ensures forall i :: 0 <= i < |TrendingHashtags(data)| ==>
      TagCount(TagOccurrences(data), TrendingHashtags(data)[i][1..]) >= TagCount(TagOccurrences(data), tag)
  {
    var occ := TagOccurrences(data);
    var d := Distinct(occ);
    var key := (t: string) => TagCount(occ, t);
    var ranked := RankedTags(occ);
    var top := Take(ranked, MaxTrending);
    var r := TrendingHashtags(data);
    var m :| 0 <= m < |occ| && occ[m] == tag;
    assert tag in d;
    TopPrefix(d, key, MaxTrending, tag);
    forall i | 0 <= i < |r| ensures TagCount(occ, r[i][1..]) >= TagCount(occ, tag) {
      assert r[i][1..] == top[i];
    }
  }

  /** No hashtags in the response (or no data at all) gives an empty list. */
  lemma NoTagsNoTrending(data: seq<ApiTweet>)
    requires forall i :: 0 <= i < |data| ==> data[i].hashtags == []
    ensures TrendingHashtags(data) == []
  {
    NoTagsNoOccurrences(data);
  }

  lemma {:induction false} NoTagsNoOccurrences(data: seq<ApiTweet>)
    requires forall i :: 0 <= i < |data| ==> data[i].hashtags == []
    ensures TagOccurrences(data) == []
  {
    if data != [] {
      NoTagsNoOccurrences(data[..|data| - 1]);
    }
  }

  /** The dict's insertion order after one more key. */
  lemma DistinctSnoc(s: seq<string>, x: string)
    ensures Distinct(s + [x]) == if x in Distinct(s) then Distinct(s) else Distinct(s) + [x]
  {
    assert (s + [x])[..|s|] == s;
  }

  /** The dict `hashtag_counts` after counting the tags `occ` one after another. */
  function TagCounts(occ: seq<string>): map<string, nat> {
    if occ == [] then map[]
    else
      var m := TagCounts(occ[..|occ| - 1]);
      var h := occ[|occ| - 1];
      m[h := (if h in m then m[h] else 0) + 1]
  }

  /** The dict maps exactly the tags that occur, each to its number of occurrences. */
  lemma {:induction false} TagCountsAreCounts(occ: seq<string>)
    ensures forall tag :: tag in TagCounts(occ) <==> tag in occ
    ensures forall tag :: tag in TagCounts(occ) ==> TagCounts(occ)[tag] == TagCount(occ, tag)
  {
    if occ != [] {
      var init := occ[..|occ| - 1];
      var h := occ[|occ| - 1];
      TagCountsAreCounts(init);
      assert occ == init + [h];
      assert multiset(occ) == multiset(init) + multiset{h};
      forall tag ensures tag in occ <==> tag in init || tag == h {
      }
    }
  }

  /** The inner loop: one tweet's tags, each lower-cased and counted. */
  method CountTweetTags(counts0: map<string, nat>, order0: seq<string>, tags: seq<string>, ghost seen: seq<string>)
    returns (counts: map<string, nat>, order: seq<string>)
    requires counts0 == TagCounts(seen) && order0 == Distinct(seen)
    ensures counts == TagCounts(seen + MapSeq(tags, Lower)) && order == Distinct(seen + MapSeq(tags, Lower))
  {
    ghost var lowered := MapSeq(tags, Lower);
    counts, order := counts0, order0;
    var j := 0;
    assert seen + lowered[..0] == seen;
    while j < |tags|
      invariant 0 <= j <= |tags|
      invariant counts == TagCounts(seen + lowered[..j])
      invariant order == Distinct(seen + lowered[..j])
    {
      var hashtag := Lower(tags[j]);
      ghost var before := seen + lowered[..j];
      assert lowered[j] == hashtag;
      AppendNext(seen, lowered, j);
      CountStep(before, hashtag);
      if hashtag !in counts {
        order := order + [hashtag];
      }
      counts := counts[hashtag := (if hashtag in counts then counts[hashtag] else 0) + 1];
      j := j + 1;
    }
    assert lowered[..|tags|] == lowered;
  }

  lemma AppendNext<T>(seen: seq<T>, s: seq<T>, j: nat)
    requires j < |s|
    ensures seen + s[..j + 1] == (seen + s[..j]) + [s[j]]
  {
    assert s[..j + 1] == s[..j] + [s[j]];
  }

  /** The dict and its key order after counting one more tag. */
  lemma CountStep(before: seq<string>, h: string)
    ensures h in TagCounts(before) <==> h in Distinct(before)
    ensures TagCounts(before + [h])
      == TagCounts(before)[h := (if h in TagCounts(before) then TagCounts(before)[h] else 0) + 1]
    ensures Distinct(before + [h])
      == if h in TagCounts(before) then Distinct(before) else Distinct(before) + [h]
  {
    CountedIffSeen(before, h);
    assert (before + [h])[..|before|] == before;
    DistinctSnoc(before, h);
  }

  /** A tag has a count exactly when it is among the distinct tags so far. */
  lemma CountedIffSeen(before: seq<string>, h: string)
    ensures h in TagCounts(before) <==> h in Distinct(before)
  {
    TagCountsAreCounts(before);
    if h in before {
      var i :| 0 <= i < |before| && before[i] == h;
      assert before[i] in Distinct(before);
    }
  }

  /**
   * The counting loop: the map holds each tag's number of occurrences and `order` its
   * keys in insertion order, which is how a dict iterates.
   */
  method CountTags(data: seq<ApiTweet>) returns (counts: map<string, nat>, order: seq<string>)
    ensures counts == TagCounts(TagOccurrences(data))
    ensures order == Distinct(TagOccurrences(data))
  {
    counts, order := map[], [];
    var i := 0;
    while i < |data|
      invariant 0 <= i <= |data|
      invariant counts == TagCounts(TagOccurrences(data[..i]))
      invariant order == Distinct(TagOccurrences(data[..i]))
    {
      counts, order := CountTweetTags(counts, order, data[i].hashtags, TagOccurrences(data[..i]));
      assert data[..i + 1][..i] == data[..i];
      i := i + 1;
    }
    assert data[..|data|] == data;
  }

  /**
   * (`error`, `trending_hashtags`) after the stage, given its outcome and the error it
   * found: on an exception the error and an empty list, otherwise the trending tags
   * and the error as it was.
   */
  function AfterDiscovery(h: Result<seq<string>>, error0: Option<string>): (Option<string>, seq<string>) {
    match h
    case Err(m) => (Some(HashtagErrorPrefix + m), [])
    case Ok(tags) => (error0, tags)
  }

  /**
   * discover_trending_hashtags: on a response, the top ten tags; on any exception,
   * the error and an empty list.
   */
  method DiscoverHashtags(st: PipelineState, client: Client)
    modifies st`trendingHashtags, st`error
    ensures (st.error, st.trendingHashtags) == AfterDiscovery(HashtagOutcome(st.config, client), old(st.error))
  {
    var response := client(HashtagRequest(st.config.searchBase));
    if response.Err? {
      st.error := Some(HashtagErrorPrefix + response.msg);
      st.trendingHashtags := [];
      return;
    }
    var data := response.value.data;
    var counts, order := CountTags(data);
    ghost var occ := TagOccurrences(data);
    var byCount := (tag: string) => if tag in counts then counts[tag] else 0;
    var trending := SortDesc(order, byCount);
    TagCountsAreCounts(occ);
    forall i | 0 <= i < |order| ensures byCount(order[i]) == TagCount(occ, order[i]) {
      assert order[i] in occ;
    }
    SortDescKeys(order, byCount, (tag: string) => TagCount(occ, tag));
    st.trendingHashtags := MapSeq(Take(trending, MaxTrending), AddHash);
  }
}
