/**
 * The topic presets, the script variant templates and the numeric limits shared by
 * the stages.
 */
module Constants {
  import opened Wrappers
  import opened Text

  /** One topic's configuration: the keys every preset carries. */
  datatype TopicConfig = TopicConfig(
    searchBase: string,
    scheduleDay: string,
    scheduleTime: string,
    videoLength: string,
    tone: string,
    engagementThreshold: int,
    followerThreshold: int,
    competitorChannels: seq<string>)

  const NflConfig: TopicConfig := TopicConfig(
    "(NFL OR #NFL OR #SundayFootball)", "monday", "08:00", "10-12", "energetic and passionate",
    50, 10000, ["@UndisputedOnFS1", "@FirstTake", "@PatMcAfeeShow"])

  const NbaConfig: TopicConfig := TopicConfig(
    "(NBA OR #NBA OR #NBATwitter)", "daily", "09:00", "8-10", "casual and entertaining",
    30, 5000, ["@KOT4Q", "@Jxmyhighroller"])

  const TechConfig: TopicConfig := TopicConfig(
    "(tech OR #TechNews OR AI OR #AI)", "daily", "10:00", "12-15", "informative and analytical",
    100, 20000, ["@mkbhd", "@TechLinked"])

  const PoliticsConfig: TopicConfig := TopicConfig(
    "(politics OR #politics OR breaking)", "daily", "07:00", "15-20", "balanced and factual",
    200, 50000, ["@PhilipDeFranco"])

  /** The presets by topic name. */
  const ContentConfigs: map<string, TopicConfig> :=
    map["nfl" := NflConfig, "nba" := NbaConfig, "tech" := TechConfig, "politics" := PoliticsConfig]

  /** A script variant template: its name, a description and the approach the prompt asks for. */
  datatype VariantTemplate = VariantTemplate(name: string, description: string, approach: string)

  const ScriptVariants: seq<VariantTemplate> := [
    VariantTemplate("Hook-Heavy",
      "Maximum engagement in first 30 seconds, fast-paced throughout",
      "Start with the most shocking moment, rapid-fire delivery, multiple hooks"),
    VariantTemplate("Story-Driven",
      "Narrative arc, builds tension, emotional payoff",
      "Build a story around the biggest moment, character-driven, emotional journey"),
    VariantTemplate("Analytical",
      "Deep-dive analysis, tactical breakdown, expert perspective",
      "Start with analysis, use data/stats, expert commentary style"),
    VariantTemplate("Controversy-First",
      "Lead with debate, balanced takes, engagement farming",
      "Open with controversial take, present both sides, ask viewers to comment"),
    VariantTemplate("Reactions-Focused",
      "Twitter reactions, fan perspectives, viral takes",
      "Showcase best Twitter reactions, fan humor, community vibe")
  ]

  const MinEngagementRatio: real := 0.001
  const SpamReplyThreshold: real := 0.8
  const BotRtMultiplier: int := 2
  const MaxTweetsPerRequest: nat := 100
  const MaxCommentsPerTweet: nat := 100

  /** The variant templates in their fixed order; the generator uses the first three. */
  lemma VariantOrder()
    ensures |ScriptVariants| == 5
    ensures ScriptVariants[0].name == "Hook-Heavy"
    ensures ScriptVariants[1].name == "Story-Driven"
    ensures ScriptVariants[2].name == "Analytical"
    ensures forall i, j :: 0 <= i < j < |ScriptVariants| ==> ScriptVariants[i].name != ScriptVariants[j].name
  {
  }

  /** The two numbers of a video length written "lo-hi". */
  function LengthBounds(videoLength: string): Option<(int, int)> {
    var parts := Split(videoLength, "-");
    if |parts| == 2 && PyInt(parts[0]).Some? && PyInt(parts[1]).Some? then
      Some((PyInt(parts[0]).value, PyInt(parts[1]).value))
    else None
  }

  /** "lo-hi" written with decimal numerals reads back as (lo, hi). */
  lemma {:induction false} LengthBoundsOfNumerals(lo: nat, hi: nat)
    ensures LengthBounds(NatToString(lo) + "-" + NatToString(hi)) == Some((lo, hi))
  {
    var a := NatToString(lo);
    var b := NatToString(hi);
    assert '-' !in a;
    NotInFree(b, "-");
    SplitPair(a, "-", b);
    PyIntOfNatToString(lo);
    PyIntOfNatToString(hi);
  }

  lemma TwoDigitNumerals()
    ensures NatToString(10) == "10" && NatToString(12) == "12"
    ensures NatToString(15) == "15" && NatToString(20) == "20"
  {
  }

  lemma PresetLength(c: TopicConfig, lo: nat, hi: nat)
    requires c.videoLength == NatToString(lo) + "-" + NatToString(hi) && lo < hi
    ensures LengthBounds(c.videoLength) == Some((lo, hi))
  {
    LengthBoundsOfNumerals(lo, hi);
  }

  /** A video length "lo-hi" with decimal numerals and lo < hi. */
  predicate WellFormedLength(videoLength: string) {
    var b := LengthBounds(videoLength);
    b.Some? && b.value.0 < b.value.1
  }

  lemma NflLength() ensures WellFormedLength(NflConfig.videoLength) {
    TwoDigitNumerals();
    PresetLength(NflConfig, 10, 12);
  }

  lemma NbaLength() ensures WellFormedLength(NbaConfig.videoLength) {
    TwoDigitNumerals();
    PresetLength(NbaConfig, 8, 10);
  }

  lemma TechLength() ensures WellFormedLength(TechConfig.videoLength) {
    TwoDigitNumerals();
    PresetLength(TechConfig, 12, 15);
  }

  lemma PoliticsLength() ensures WellFormedLength(PoliticsConfig.videoLength) {
    TwoDigitNumerals();
    PresetLength(PoliticsConfig, 15, 20);
  }

  /** Every preset's video length has the form "lo-hi" with decimal numerals and lo < hi. */
  lemma PresetLengthsWellFormed()
    ensures forall topic :: topic in ContentConfigs ==> WellFormedLength(ContentConfigs[topic].videoLength)
  {
    NflLength();
    NbaLength();
    TechLength();
    PoliticsLength();
  }

  /** Every preset is scheduled on "monday" or "daily" and has positive thresholds. */
  lemma PresetSchedulesAndThresholds()
    ensures forall topic :: topic in ContentConfigs ==>
      (ContentConfigs[topic].scheduleDay == "monday" || ContentConfigs[topic].scheduleDay == "daily")
      && ContentConfigs[topic].engagementThreshold > 0 && ContentConfigs[topic].followerThreshold > 0
  {
  }
}
