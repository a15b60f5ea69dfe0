/**
 * Running the agent for one topic, and registering the scheduled runs of several
 * topics: the preset looked up by topic name, the caller's overrides merged over it,
 * the outcome of a run, and the cadence each topic's schedule day selects.
 */
module Executor {
  import opened Wrappers
  import opened Constants
  import opened Services
  import opened State
  import Workflow
  import FileManager

  // ------------------------------------------------------------------ lookup

  /**
   * The preset for a topic name, or the ValueError the lookup raises for a name
   * without a preset.
   */
  function TopicConfigOf(topic: string): (r: Outcome<TopicConfig>)
    ensures r.Done? <==> topic in ContentConfigs
    ensures r.Done? ==> r.value == ContentConfigs[topic]
    ensures r.Raises? ==> r.exc == ValueError
  {
    if topic in ContentConfigs then Done(ContentConfigs[topic]) else Raises(ValueError)
  }

  // --------------------------------------------------------------- overrides

  /** The keys of a topic configuration. */
  datatype Key =
    | SearchBase | ScheduleDay | ScheduleTime | VideoLength | Tone
    | EngagementThreshold | FollowerThreshold | CompetitorChannels

  /** A configuration value, as the dict holds it. */
  datatype Value = StrValue(s: string) | IntValue(n: int) | ListValue(items: seq<string>)

  /** The configuration read as a dict: the value under each key. */
  function Lookup(c: TopicConfig, k: Key): Value {
    match k
    case SearchBase => StrValue(c.searchBase)
    case ScheduleDay => StrValue(c.scheduleDay)
    case ScheduleTime => StrValue(c.scheduleTime)
    case VideoLength => StrValue(c.videoLength)
    case Tone => StrValue(c.tone)
    case EngagementThreshold => IntValue(c.engagementThreshold)
    case FollowerThreshold => IntValue(c.followerThreshold)
    case CompetitorChannels => ListValue(c.competitorChannels)
  }

  /** Two configurations that agree on every key are the same configuration. */
  lemma LookupDetermines(a: TopicConfig, b: TopicConfig)
    requires forall k :: Lookup(a, k) == Lookup(b, k)
    ensures a == b
  {
    assert Lookup(a, SearchBase) == Lookup(b, SearchBase);
    assert Lookup(a, ScheduleDay) == Lookup(b, ScheduleDay);
    assert Lookup(a, ScheduleTime) == Lookup(b, ScheduleTime);
    assert Lookup(a, VideoLength) == Lookup(b, VideoLength);
    assert Lookup(a, Tone) == Lookup(b, Tone);
    assert Lookup(a, EngagementThreshold) == Lookup(b, EngagementThreshold);
    assert Lookup(a, FollowerThreshold) == Lookup(b, FollowerThreshold);
    assert Lookup(a, CompetitorChannels) == Lookup(b, CompetitorChannels);
  }

  /** The caller's overrides: for each key, the value to use instead of the preset's, if any. */
  datatype Overrides = Overrides(
    searchBase: Option<string>,
    scheduleDay: Option<string>,
    scheduleTime: Option<string>,
    videoLength: Option<string>,
    tone: Option<string>,
    engagementThreshold: Option<int>,
    followerThreshold: Option<int>,
    competitorChannels: Option<seq<string>>)

  /** The empty overrides dict. */
  const NoOverrides: Overrides := Overrides(None, None, None, None, None, None, None, None)

  /** The override under a key, as the dict holds it, if the caller gave one. */
  function OverrideOf(o: Overrides, k: Key): Option<Value> {
    match k
    case SearchBase => if o.searchBase.Some? then Some(StrValue(o.searchBase.value)) else None
    case ScheduleDay => if o.scheduleDay.Some? then Some(StrValue(o.scheduleDay.value)) else None
    case ScheduleTime => if o.scheduleTime.Some? then Some(StrValue(o.scheduleTime.value)) else None
    case VideoLength => if o.videoLength.Some? then Some(StrValue(o.videoLength.value)) else None
    case Tone => if o.tone.Some? then Some(StrValue(o.tone.value)) else None
    case EngagementThreshold =>
      if o.engagementThreshold.Some? then Some(IntValue(o.engagementThreshold.value)) else None
    case FollowerThreshold =>
      if o.followerThreshold.Some? then Some(IntValue(o.followerThreshold.value)) else None
    case CompetitorChannels =>
      if o.competitorChannels.Some? then Some(ListValue(o.competitorChannels.value)) else None
  }

  /** The empty dict overrides no key, and it is the only one that overrides none. */
  lemma NoOverridesIsEmpty(o: Overrides)
    ensures o == NoOverrides <==> forall k :: OverrideOf(o, k).None?
  {
    if forall k :: OverrideOf(o, k).None? {
      assert OverrideOf(o, SearchBase).None? && OverrideOf(o, ScheduleDay).None?;
      assert OverrideOf(o, ScheduleTime).None? && OverrideOf(o, VideoLength).None?;
      assert OverrideOf(o, Tone).None? && OverrideOf(o, EngagementThreshold).None?;
      assert OverrideOf(o, FollowerThreshold).None? && OverrideOf(o, CompetitorChannels).None?;
    }
  }

  /** `dict.update`: each key takes the override's value where there is one, the preset's otherwise. */
  function Merge(preset: TopicConfig, o: Overrides): (m: TopicConfig)
    ensures forall k :: OverrideOf(o, k).Some? ==> Lookup(m, k) == OverrideOf(o, k).value
    ensures forall k :: OverrideOf(o, k).None? ==> Lookup(m, k) == Lookup(preset, k)
  {
    TopicConfig(
      o.searchBase.GetOr(preset.searchBase),
      o.scheduleDay.GetOr(preset.scheduleDay),
      o.scheduleTime.GetOr(preset.scheduleTime),
      o.videoLength.GetOr(preset.videoLength),
      o.tone.GetOr(preset.tone),
      o.engagementThreshold.GetOr(preset.engagementThreshold),
      o.followerThreshold.GetOr(preset.followerThreshold),
      o.competitorChannels.GetOr(preset.competitorChannels))
  }

  /** Applying the same overrides twice changes nothing the first application did not. */
  lemma MergeIdempotent(preset: TopicConfig, o: Overrides)
    ensures Merge(Merge(preset, o), o) == Merge(preset, o)
  {
    var m := Merge(preset, o);
    forall k ensures Lookup(Merge(m, o), k) == Lookup(m, k) {
    }
    LookupDetermines(Merge(m, o), m);
  }

  /**
   * The configuration a run uses: a copy of the preset, updated with the caller's
   * overrides when there are any (`if custom_config:` skips both None and `{}`).
   */
  function Configured(preset: TopicConfig, custom: Option<Overrides>): TopicConfig {
    if custom.Some? && custom.value != NoOverrides then Merge(preset, custom.value) else preset
  }

  /**
   * Without overrides, or with the empty dict, the run uses the preset; with overrides
   * it uses the merge, so the empty dict and None need no special case.
   */
  lemma ConfiguredCases(preset: TopicConfig, custom: Option<Overrides>)
    ensures custom.None? || custom == Some(NoOverrides) ==> Configured(preset, custom) == preset
    ensures custom.Some? ==> Configured(preset, custom) == Merge(preset, custom.value)
  {
    var m := Merge(preset, NoOverrides);
    forall k ensures Lookup(m, k) == Lookup(preset, k) {
    }
    LookupDetermines(m, preset);
  }

  // -------------------------------------------------------------------- runs

  /**
   * What `run_agent_for_topic` ends in: an exception that escapes it, None for a run
   * that ends with the error set, or the final state (and the names the scripts were
   * saved under).
   */
  datatype RunResult = Escaped(exc: Uncaught) | Failed | Finished(state: PipelineState, files: seq<string>)

  /**
   * run_agent_for_topic: look the topic's preset up (an unknown topic's ValueError
   * escapes), merge the overrides into a copy, build the agent and run it from the
   * initial state. A run that ends with the error set gives None.
   */
  method RunAgentForTopic(topic: string, custom: Option<Overrides>, client: Client, llm: Llm, parse: JsonParser,
                          generatedAt: string)
    returns (r: RunResult)
    ensures topic !in ContentConfigs ==> r == Escaped(ValueError)
    ensures topic in ContentConfigs ==>
      var cfg := Configured(ContentConfigs[topic], custom);
      && (r.Failed? <==> Workflow.RunError(cfg, client).Some?)
      && (r.Finished? ==>
            && fresh(r.state) && r.state.topic == topic && r.state.config == cfg
            && r.state.error.None? && r.state.finalOutput.Some?
            && r.state.trendingHashtags == Workflow.RunHashtags(cfg, client)
            && r.files == FileManager.ScriptFileNames(r.state.scriptVariants))
  {
    var lookup := TopicConfigOf(topic);
    if lookup.Raises? {
      return Escaped(lookup.exc);
    }
    var cfg := Configured(lookup.value, custom);
    var agent := Workflow.BuildAgent();
    var st := new PipelineState(topic, cfg);
    var escape, files := Workflow.RunPipeline(agent, st, client, llm, parse, generatedAt);
    if escape.Some? {
      return Escaped(escape.value);
    }
    Workflow.RunErrorCases(cfg, client);
    if st.error.Some? && st.error.value != "" {
      return Failed;
    }
    return Finished(st, files);
  }

  // -------------------------------------------------------------- scheduling

  datatype Weekday = Monday | Tuesday | Wednesday | Thursday | Friday | Saturday | Sunday

  /** How often a scheduled job runs. */
  datatype Cadence = Daily | Weekly(day: Weekday)

  /** The schedule-day name of each weekday. */
  function DayName(w: Weekday): string {
    match w
    case Monday => "monday"
    case Tuesday => "tuesday"
    case Wednesday => "wednesday"
    case Thursday => "thursday"
    case Friday => "friday"
    case Saturday => "saturday"
    case Sunday => "sunday"
  }

  /**
   * The if/elif chain over `schedule_day`: "daily", or a weekday's name in lower
   * case; any other value selects no cadence.
   */
  function CadenceOf(day: string): (c: Option<Cadence>)
    ensures c == Some(Daily) <==> day == "daily"
    ensures forall w :: c == Some(Weekly(w)) <==> day == DayName(w)
  {
    if day == "daily" then Some(Daily)
    else if day == "monday" then Some(Weekly(Monday))
    else if day == "tuesday" then Some(Weekly(Tuesday))
    else if day == "wednesday" then Some(Weekly(Wednesday))
    else if day == "thursday" then Some(Weekly(Thursday))
    else if day == "friday" then Some(Weekly(Friday))
    else if day == "saturday" then Some(Weekly(Saturday))
    else if day == "sunday" then Some(Weekly(Sunday))
    else None
  }

  /** One registered job: the topic, how often it runs and the time of day. */
  datatype Job = Job(topic: string, cadence: Cadence, at: string)

  /** The job a topic registers: none without a preset or with an unrecognised day. */
  function JobFor(topic: string): Option<Job> {
    match TopicConfigOf(topic)
    case Raises(_) => None
    case Done(cfg) =>
      match CadenceOf(cfg.scheduleDay)
      case None => None
      case Some(c) => Some(Job(topic, c, cfg.scheduleTime))
  }

  /** A topic registers exactly one job when it has a preset whose day is recognised, at the preset's time. */
  lemma JobForCases(topic: string)
    ensures JobFor(topic).Some? <==>
      topic in ContentConfigs && CadenceOf(ContentConfigs[topic].scheduleDay).Some?
    ensures JobFor(topic).Some? ==>
      && JobFor(topic).value.topic == topic
      && JobFor(topic).value.at == ContentConfigs[topic].scheduleTime
      && Some(JobFor(topic).value.cadence) == CadenceOf(ContentConfigs[topic].scheduleDay)
  {
  }

  /** The jobs a list of topics registers, in list order. */
  function JobsFor(topics: seq<string>): seq<Job> {
    if topics == [] then []
    else (if JobFor(topics[0]).Some? then [JobFor(topics[0]).value] else []) + JobsFor(topics[1..])
  }

  /** Registering two lists one after the other registers the jobs of each. */
  lemma {:induction false} JobsForAppend(a: seq<string>, b: seq<string>)
    ensures JobsFor(a + b) == JobsFor(a) + JobsFor(b)
  {
    if a != [] {
      assert (a + b)[0] == a[0];
      assert (a + b)[1..] == a[1..] + b;
      JobsForAppend(a[1..], b);
    } else {
      assert a + b == b;
    }
  }

  /** A topic without a preset is skipped and the topics after it are still registered. */
  lemma SkipUnknownTopic(a: seq<string>, topic: string, b: seq<string>)
    requires topic !in ContentConfigs
    ensures JobsFor(a + [topic] + b) == JobsFor(a) + JobsFor(b)
  {
    JobsForAppend(a + [topic], b);
    JobsForAppend(a, [topic]);
    assert JobsFor([topic]) == [] by {
      assert [topic][1..] == [];
    }
  }

  /** Every job comes from a listed topic, and every listed topic that registers a job has it registered. */
  lemma {:induction false} JobsForMembers(topics: seq<string>)
    ensures forall j :: j in JobsFor(topics) ==> j.topic in topics && JobFor(j.topic) == Some(j)
    ensures forall t :: t in topics && JobFor(t).Some? ==> JobFor(t).value in JobsFor(topics)
  {
    if topics != [] {
      JobsForMembers(topics[1..]);
      forall t | t in topics && JobFor(t).Some? ensures JobFor(t).value in JobsFor(topics) {
        if t != topics[0] {
          assert t in topics[1..];
        }
      }
    }
  }

  /** A list of preset topics registers one job per topic, in list order. */
  lemma {:induction false} PresetTopicsAllScheduled(topics: seq<string>)
    requires forall t :: t in topics ==> t in ContentConfigs
    ensures |JobsFor(topics)| == |topics|
    ensures forall i :: 0 <= i < |topics| ==> JobsFor(topics)[i].topic == topics[i]
  {
    if topics != [] {
      PresetSchedulesAndThresholds();
      assert topics[0] in topics;
      var day := ContentConfigs[topics[0]].scheduleDay;
      assert CadenceOf(day).Some? by {
        if day == "monday" {
          assert CadenceOf(day) == Some(Weekly(Monday)) by {
            assert day == DayName(Monday);
          }
        }
      }
      assert forall t :: t in topics[1..] ==> t in topics;
      PresetTopicsAllScheduled(topics[1..]);
    }
  }

  /**
   * setup_automation, up to registering the jobs: each topic in turn is looked up,
   * skipped when it has no preset, and registered at its preset time on the cadence
   * its day selects, or not at all for an unrecognised day.
   */
  method SetupAutomation(topics: seq<string>) returns (jobs: seq<Job>)
    ensures jobs == JobsFor(topics)
  {
    jobs := [];
    var i := 0;
    while i < |topics|
      invariant 0 <= i <= |topics|
      invariant jobs == JobsFor(topics[..i])
    {
      var topic := topics[i];
      JobsForAppend(topics[..i], [topic]);
      assert topics[..i + 1] == topics[..i] + [topic];
      assert [topic][1..] == [];
      i := i + 1;
      var lookup := TopicConfigOf(topic);
      if lookup.Raises? {
        continue;
      }
      var cadence := CadenceOf(lookup.value.scheduleDay);
      if cadence.Some? {
        jobs := jobs + [Job(topic, cadence.value, lookup.value.scheduleTime)];
      }
    }
    assert topics[..|topics|] == topics;
  }
}
