/**
 * Media suggestions: one screenshot per tweet among the first ten quality tweets, at
 * one-minute marks, then one B-roll clip per viral moment among the first five the
 * sentiment analysis names.
 */
module Media {
  import opened Wrappers
  import opened Seqs
  import opened Sorting
  import opened Text
  import opened JsonValues
  import opened Records
  import opened State

  const MaxShotTweets: nat := 10
  const MaxClips: nat := 5
  const SecondsPerShot: nat := 60
  const ViralMomentsKey: string := "viral_moments"
  const WithMediaKind: string := "tweet_with_media"
  const ScreenshotKind: string := "tweet_screenshot"

  /** Python's `int(x)` of a float: truncation toward zero. */
  function Trunc(x: real): (n: int)
    ensures x >= 0.0 ==> n as real <= x < n as real + 1.0
    ensures x < 0.0 ==> n as real - 1.0 < x <= n as real
  {
    if x >= 0.0 then x.Floor else -((-x).Floor)
  }

  /** `f"[{i*60}s]"`. */
  function ShotTimestamp(i: nat): string {
    "[" + NatToString(i * SecondsPerShot) + "s]"
  }

  /** Screenshots of different positions get different timestamps. */
  lemma ShotTimestampsDistinct(i: nat, j: nat)
    requires i != j
    ensures ShotTimestamp(i) != ShotTimestamp(j)
  {
    var a := NatToString(i * SecondsPerShot);
    var b := NatToString(j * SecondsPerShot);
    if ShotTimestamp(i) == ShotTimestamp(j) {
      assert |a| == |b|;
      assert a == ShotTimestamp(i)[1..|a| + 1] == ShotTimestamp(j)[1..|b| + 1] == b;
      PyIntOfNatToString(i * SecondsPerShot);
      PyIntOfNatToString(j * SecondsPerShot);
    }
  }

  /**
   * The suggestion for the tweet at (1-based) position i: with media, a screenshot
   * citing its engagement; without, one citing its truncated quality score, or `None`
   * where `tweet['quality_score']` raises KeyError.
   */
  function ShotOf(i: nat, t: Tweet): (s: Option<MediaSuggestion>)
    reads t
    ensures s.Some? <==> t.rec.media != [] || t.qualityScore.Some?
    ensures s.Some? ==> s.value.TweetShot? && s.value.timestamp == ShotTimestamp(i) && s.value.tweetUrl == t.rec.tweetUrl
    ensures s.Some? ==> (s.value.kind == WithMediaKind <==> t.rec.media != [])
  {
    var author := "Screenshot tweet from @" + t.rec.authorUsername;
    if t.rec.media != [] then
      Some(TweetShot(WithMediaKind, ShotTimestamp(i), author + " with embedded media", t.rec.tweetUrl,
        "High engagement (" + NatToString(t.rec.totalEngagement) + "), has visual content"))
    else if t.qualityScore.None? then None
    else
      Some(TweetShot(ScreenshotKind, ShotTimestamp(i), author, t.rec.tweetUrl,
        "Top quality score (" + IntToString(Trunc(t.qualityScore.value)) + ")"))
  }

  /** Every tweet can be shot: it has media, or a quality score. */
  predicate Shootable(ts: seq<Tweet>)
    reads set t | t in ts
  {
    forall i :: 0 <= i < |ts| ==> ts[i].rec.media != [] || ts[i].qualityScore.Some?
  }

  /** The screenshot loop over `enumerate(ts, 1)`, or `None` where it raises. */
  function Shots(ts: seq<Tweet>): (r: Option<seq<MediaSuggestion>>)
    reads set t | t in ts
    ensures r.Some? ==> |r.value| == |ts|
  {
    if ts == [] then Some([])
    else
      var init := ts[..|ts| - 1];
      assert forall i :: 0 <= i < |init| ==> init[i] == ts[i];
      match Shots(init)
      case None => None
      case Some(ss) =>
        match ShotOf(|ts|, ts[|ts| - 1])
        case None => None
        case Some(s) => Some(ss + [s])
  }

  /** The loop raises exactly when some tweet can be shot neither way; otherwise shot i is ShotOf(i + 1, tweet i). */
  lemma {:induction false} ShotsExactly(ts: seq<Tweet>)
    ensures Shots(ts).Some? <==> Shootable(ts)
    ensures Shots(ts).Some? ==> forall i :: 0 <= i < |ts| ==> Shots(ts).value[i] == ShotOf(i + 1, ts[i]).value
  {
    if ts != [] {
      var init := ts[..|ts| - 1];
      var last := ts[|ts| - 1];
      ShotsExactly(init);
      ShootableSnoc(ts);
      if Shots(ts).Some? {
        var ss := Shots(init).value;
        assert Shots(ts).value == ss + [ShotOf(|ts|, last).value];
        forall i | 0 <= i < |ts| ensures Shots(ts).value[i] == ShotOf(i + 1, ts[i]).value {
          if i < |init| {
            assert init[i] == ts[i];
          }
        }
      }
    }
  }

  /** A non-empty sequence can be shot when its front can and its last tweet can. */
  lemma ShootableSnoc(ts: seq<Tweet>)
    requires ts != []
    ensures Shootable(ts) <==>
      Shootable(ts[..|ts| - 1]) && (ts[|ts| - 1].rec.media != [] || ts[|ts| - 1].qualityScore.Some?)
  {
    var init := ts[..|ts| - 1];
    assert forall i :: 0 <= i < |init| ==> init[i] == ts[i];
  }

  /**
   * `sentiment.get('viral_moments', [])[:5]`, one clip per element; `None` where the
   * slice raises TypeError (a value that is neither a list nor a string).
   */
  function Clips(sentiment: map<string, Json>): (r: Option<seq<MediaSuggestion>>)
    ensures r.Some? ==> |r.value| <= MaxClips
    ensures r.Some? ==> forall i :: 0 <= i < |r.value| ==> r.value[i].VideoClip?
  {
    match Slice(Get(sentiment, ViralMomentsKey, EmptyList), MaxClips)
    case None => None
    case Some(moments) =>
      match Elements(moments)
      case None => None
      case Some(ms) => Some(MapSeq(ms, ClipOf))
  }

  /** A B-roll clip of one viral moment. */
  function ClipOf(moment: Json): MediaSuggestion {
    VideoClip(moment)
  }

  /** A failed sentiment analysis, whose record is only the error marker, yields no clips. */
  lemma NoClipsAfterFailedAnalysis(msg: string)
    ensures Clips(ErrorMarker(msg)) == Some([])
  {
    assert ViralMomentsKey !in ErrorMarker(msg);
  }

  /** The clips are the first five viral moments, in order. */
  lemma ClipsAreFirstMoments(sentiment: map<string, Json>, moments: seq<Json>)
    requires ViralMomentsKey in sentiment && sentiment[ViralMomentsKey] == JArr(moments)
    ensures Clips(sentiment).Some?
    ensures |Clips(sentiment).value| == Min(MaxClips, |moments|)
    ensures forall i :: 0 <= i < |Clips(sentiment).value| ==> Clips(sentiment).value[i] == VideoClip(moments[i])
  {
  }

  /** What the stage stores in `media_suggestions`, or the exception that escapes it. */
  function MediaOutcome(filtered: seq<Tweet>, sentiment: map<string, Json>): Outcome<seq<MediaSuggestion>>
    reads set t | t in filtered
  {
    match Shots(Take(filtered, MaxShotTweets))
    case None => Raises(KeyError)
    case Some(shots) =>
      match Clips(sentiment)
      case None => Raises(TypeError)
      case Some(clips) => Done(shots + clips)
  }

  /**
   * The suggestions: one screenshot per tweet among the first ten, in order and with
   * timestamps [60s], [120s], ..., then the clips; a tweet has the media kind exactly
   * when it has media.
   */
  lemma MediaShape(filtered: seq<Tweet>, sentiment: map<string, Json>)
    requires MediaOutcome(filtered, sentiment).Done?
    ensures var v := MediaOutcome(filtered, sentiment).value;
      var n := Min(MaxShotTweets, |filtered|);
      && |v| == n + |Clips(sentiment).value| && |v| <= MaxShotTweets + MaxClips
      && (forall i :: 0 <= i < n ==>
            && v[i].TweetShot? && v[i].timestamp == ShotTimestamp(i + 1)
            && v[i].tweetUrl == filtered[i].rec.tweetUrl
            && (v[i].kind == WithMediaKind <==> filtered[i].rec.media != []))
      && (forall i :: n <= i < |v| ==> v[i].VideoClip?)
  {
    var top := Take(filtered, MaxShotTweets);
    ShotsExactly(top);
    var shots := Shots(top).value;
    var clips := Clips(sentiment).value;
    var v := shots + clips;
    forall i | 0 <= i < |top|
      ensures v[i].TweetShot? && v[i].timestamp == ShotTimestamp(i + 1) && v[i].tweetUrl == filtered[i].rec.tweetUrl
      ensures v[i].kind == WithMediaKind <==> filtered[i].rec.media != []
    {
      assert v[i] == shots[i] == ShotOf(i + 1, top[i]).value;
    }
  }

  /** The stage raises KeyError exactly when one of the first ten tweets has neither media nor a score. */
  lemma MediaRaisesOnUnscored(filtered: seq<Tweet>, sentiment: map<string, Json>)
    ensures MediaOutcome(filtered, sentiment) == Raises(KeyError) <==> !Shootable(Take(filtered, MaxShotTweets))
  {
    ShotsExactly(Take(filtered, MaxShotTweets));
  }

  /** The screenshot loop. */
  method BuildShots(ts: seq<Tweet>) returns (r: Option<seq<MediaSuggestion>>)
    ensures r == Shots(ts)
  {
    var shots: seq<MediaSuggestion> := [];
    var i := 0;
    while i < |ts|
      invariant 0 <= i <= |ts|
      invariant Shots(ts[..i]) == Some(shots)
    {
      assert ts[..i + 1][..i] == ts[..i];
      var shot := ShotOf(i + 1, ts[i]);
      if shot.None? {
        ShotsPrefixNone(ts, i + 1);
        return None;
      }
      shots := shots + [shot.value];
      i := i + 1;
    }
    assert ts[..|ts|] == ts;
    return Some(shots);
  }

  /** Once a prefix raises, the whole loop raises. */
  lemma {:induction false} ShotsPrefixNone(ts: seq<Tweet>, k: nat)
    requires k <= |ts| && Shots(ts[..k]).None?
    ensures Shots(ts).None?
    decreases |ts| - k
  {
    if k < |ts| {
      var next := ts[..k + 1];
      assert next[..k] == ts[..k];
      ShotsPrefixNone(ts, k + 1);
    } else {
      assert ts[..k] == ts;
    }
  }

  /**
   * generate_media_suggestions. With an error set nothing happens; otherwise only
   * `media_suggestions` is written, as MediaOutcome says, or the exception escapes
   * and nothing is written.
   */
  method GenerateMedia(st: PipelineState) returns (escape: Option<Uncaught>)
    modifies st`mediaSuggestions
    ensures old(st.error).Some? ==> unchanged(st) && escape.None?
    ensures old(st.error).None? && MediaOutcome(st.filteredTweets, st.sentimentAnalysis).Done? ==>
      escape.None? && st.mediaSuggestions == MediaOutcome(st.filteredTweets, st.sentimentAnalysis).value
    ensures old(st.error).None? && MediaOutcome(st.filteredTweets, st.sentimentAnalysis).Raises? ==>
      escape == Some(MediaOutcome(st.filteredTweets, st.sentimentAnalysis).exc) && unchanged(st)
  {
    if st.error.Some? {
      return None;
    }
    var shots := BuildShots(Take(st.filteredTweets, MaxShotTweets));
    if shots.None? {
      return Some(KeyError);
    }
    var moments := Slice(Get(st.sentimentAnalysis, ViralMomentsKey, EmptyList), MaxClips);
    if moments.None? {
      return Some(TypeError);
    }
    var suggestions := AppendClips(shots.value, Elements(moments.value).value);
    st.mediaSuggestions := suggestions;
    return None;
  }

  /** The clip loop: one clip per moment, after the suggestions so far. */
  method AppendClips(suggestions0: seq<MediaSuggestion>, moments: seq<Json>) returns (suggestions: seq<MediaSuggestion>)
    ensures suggestions == suggestions0 + MapSeq(moments, ClipOf)
  {
    suggestions := suggestions0;
    var k := 0;
    while k < |moments|
      invariant 0 <= k <= |moments| && |suggestions| == |suggestions0| + k
      invariant suggestions[..|suggestions0|] == suggestions0
      invariant forall j :: 0 <= j < k ==> suggestions[|suggestions0| + j] == ClipOf(moments[j])
    {
      suggestions := suggestions + [ClipOf(moments[k])];
      k := k + 1;
    }
  }
}
