/**
 * The metric catalog: one adder per optional field of `Metrics`, in field
 * order, each knowing which field it reads and which calls it makes on the
 * entity for it (src/metrics.go).
 */
module Catalog {
  import opened Wrappers
  import opened Types

  /* Converters from the single-value shapes to a gauge. */

  function PercentageToGauge(p: Option<Percentage>): (g: Option<Gauge>)
    ensures g.Some? <==> p.Some?
    ensures p.Some? ==> g.value.value == p.value.value
  {
    if p.Some? then Some(Gauge(p.value.value)) else None
  }

  function BitrateToGauge(b: Option<Bitrate>): (g: Option<Gauge>)
    ensures g.Some? <==> b.Some?
    ensures b.Some? ==> g.value.value == b.value.bps
  {
    if b.Some? then Some(Gauge(b.value.bps)) else None
  }

  function FramerateToGauge(f: Option<Framerate>): (g: Option<Gauge>)
    ensures g.Some? <==> f.Some?
    ensures f.Some? ==> g.value.value == f.value.fps
  {
    if f.Some? then Some(Gauge(f.value.fps)) else None
  }

  function RatioToGauge(r: Option<Ratio>): (g: Option<Gauge>)
    ensures g.Some? <==> r.Some?
    ensures r.Some? ==> g.value.value == r.value.ratio
  {
    if r.Some? then Some(Gauge(r.value.ratio)) else None
  }

  /** The fields read by the `createCountFunc` entries. */
  datatype CountField =
    | AdAttempts
    | AdConcurrentPlays
    | AdUniqueDevices
    | Attempts
    | ConcurrentPlays
    | GoodSession
    | GoodUniqueDevices
    | GoodUniqueViewers
    | IntervalMinutesPlayed
    | SpiStreams
    | SpiUniqueDevices
    | SpiUniqueViewers
    | UniqueDevices

  /** The accessor closure of each `createCountFunc` entry. */
  function GetCount(m: Metrics, f: CountField): Option<Count>
  {
    match f
    case AdAttempts => m.adAttempts
    case AdConcurrentPlays => m.adConcurrentPlays
    case AdUniqueDevices => m.adUniqueDevices
    case Attempts => m.attempts
    case ConcurrentPlays => m.concurrentPlays
    case GoodSession => m.goodSession
    case GoodUniqueDevices => m.goodUniqueDevices
    case GoodUniqueViewers => m.goodUniqueViewers
    case IntervalMinutesPlayed => m.intervalMinutesPlayed
    case SpiStreams => m.spiStreams
    case SpiUniqueDevices => m.spiUniqueDevices
    case SpiUniqueViewers => m.spiUniqueViewers
    case UniqueDevices => m.uniqueDevices
  }

  /** The fields read by the `createGaugeFunc` entries: gauges, and values converted to a gauge. */
  datatype GaugeField =
    | AbandonmentWithPreRoll
    | AbandonmentWithoutPreRoll
    | AdActualDuration
    | AdBitrate
    | AdCompletedCreativePlays
    | AdConnectionInducedRebufferingRatio
    | AdFramerate
    | AdPercentageComplete
    | AdRebufferingRatio
    | AdVideoRestartTime
    | AdVideoStartTime
    | BadSessionAverageLifePlayingTimeMins
    | Bitrate
    | ConnectionInducedRebufferingRatio
    | Framerate
    | GoodSessionAverageLifePlayingTimeMins
    | HighRebufferingWithAds
    | HighRebufferingWithoutAds
    | HighStartupTimeWithPreRoll
    | HighStartupTimeWithoutPreRoll
    | LowBitrateWithAds
    | LowBitrateWithoutAds
    | PercentageComplete
    | RebufferingRatio
    | StreamingPerformanceIndex
    | VideoPlaybackFailuresTechWithAds
    | VideoPlaybackFailuresTechWithoutAds
    | VideoRestartTime
    | VideoStartFailuresTechWithPreRoll
    | VideoStartFailuresTechWithoutPreRoll
    | VideoStartTime

  /** The accessor closure of each `createGaugeFunc` entry, with its conversion. */
  function GetGauge(m: Metrics, f: GaugeField): Option<Gauge>
  {
    match f
    case AbandonmentWithPreRoll => PercentageToGauge(m.abandonmentWithPreRoll)
    case AbandonmentWithoutPreRoll => PercentageToGauge(m.abandonmentWithoutPreRoll)
    case AdActualDuration => m.adActualDuration
    case AdBitrate => BitrateToGauge(m.adBitrate)
    case AdCompletedCreativePlays => m.adCompletedCreativePlays
    case AdConnectionInducedRebufferingRatio => RatioToGauge(m.adConnectionInducedRebufferingRatio)
    case AdFramerate => FramerateToGauge(m.adFramerate)
    case AdPercentageComplete => PercentageToGauge(m.adPercentageComplete)
    case AdRebufferingRatio => RatioToGauge(m.adRebufferingRatio)
    case AdVideoRestartTime => m.adVideoRestartTime
    case AdVideoStartTime => m.adVideoStartTime
    case BadSessionAverageLifePlayingTimeMins => m.badSessionAverageLifePlayingTimeMins
    case Bitrate => BitrateToGauge(m.bitrate)
    case ConnectionInducedRebufferingRatio => RatioToGauge(m.connectionInducedRebufferingRatio)
    case Framerate => FramerateToGauge(m.framerate)
    case GoodSessionAverageLifePlayingTimeMins => m.goodSessionAverageLifePlayingTimeMins
    case HighRebufferingWithAds => PercentageToGauge(m.highRebufferingWithAds)
    case HighRebufferingWithoutAds => PercentageToGauge(m.highRebufferingWithoutAds)
    case HighStartupTimeWithPreRoll => PercentageToGauge(m.highStartupTimeWithPreRoll)
    case HighStartupTimeWithoutPreRoll => PercentageToGauge(m.highStartupTimeWithoutPreRoll)
    case LowBitrateWithAds => PercentageToGauge(m.lowBitrateWithAds)
    case LowBitrateWithoutAds => PercentageToGauge(m.lowBitrateWithoutAds)
    case PercentageComplete => PercentageToGauge(m.percentageComplete)
    case RebufferingRatio => RatioToGauge(m.rebufferingRatio)
    case StreamingPerformanceIndex => m.streamingPerformanceIndex
    case VideoPlaybackFailuresTechWithAds => PercentageToGauge(m.videoPlaybackFailuresTechWithAds)
    case VideoPlaybackFailuresTechWithoutAds => PercentageToGauge(m.videoPlaybackFailuresTechWithoutAds)
    case VideoRestartTime => m.videoRestartTime
    case VideoStartFailuresTechWithPreRoll => PercentageToGauge(m.videoStartFailuresTechWithPreRoll)
    case VideoStartFailuresTechWithoutPreRoll => PercentageToGauge(m.videoStartFailuresTechWithoutPreRoll)
    case VideoStartTime => m.videoStartTime
  }

  /** The fields read by the `createCountPercentageFunc` entries. */
  datatype CountPercentageField =
    | Abandonment
    | AdExitBeforeVideoStarts
    | AdPlays
    | AdVideoPlaybackFailures
    | AdVideoStartFailures
    | AttemptsWithPreRoll
    | AttemptsWithoutPreRoll
    | BadSession
    | BadUniqueDevices
    | BadUniqueViewers
    | EndedPlaysWithAds
    | EndedPlaysWithoutAds
    | ExitBeforeVideoStarts
    | HighRebuffering
    | HighStartupTime
    | LowBitrate
    | NonZeroCirrEndedPlays
    | Plays
    | VideoPlaybackFailures
    | VideoPlaybackFailuresBusiness
    | VideoPlaybackFailuresTech
    | VideoStartFailures
    | VideoStartFailuresBusiness
    | VideoStartFailuresTech
    | ZeroCirrEndedPlays

  /** The accessor closure of each `createCountPercentageFunc` entry. */
  function GetCountPercentage(m: Metrics, f: CountPercentageField): Option<CountPercentage>
  {
    match f
    case Abandonment => m.abandonment
    case AdExitBeforeVideoStarts => m.adExitBeforeVideoStarts
    case AdPlays => m.adPlays
    case AdVideoPlaybackFailures => m.adVideoPlaybackFailures
    case AdVideoStartFailures => m.adVideoStartFailures
    case AttemptsWithPreRoll => m.attemptsWithPreRoll
    case AttemptsWithoutPreRoll => m.attemptsWithoutPreRoll
    case BadSession => m.badSession
    case BadUniqueDevices => m.badUniqueDevices
    case BadUniqueViewers => m.badUniqueViewers
    case EndedPlaysWithAds => m.endedPlaysWithAds
    case EndedPlaysWithoutAds => m.endedPlaysWithoutAds
    case ExitBeforeVideoStarts => m.exitBeforeVideoStarts
    case HighRebuffering => m.highRebuffering
    case HighStartupTime => m.highStartupTime
    case LowBitrate => m.lowBitrate
    case NonZeroCirrEndedPlays => m.nonZeroCirrEndedPlays
    case Plays => m.plays
    case VideoPlaybackFailures => m.videoPlaybackFailures
    case VideoPlaybackFailuresBusiness => m.videoPlaybackFailuresBusiness
    case VideoPlaybackFailuresTech => m.videoPlaybackFailuresTech
    case VideoStartFailures => m.videoStartFailures
    case VideoStartFailuresBusiness => m.videoStartFailuresBusiness
    case VideoStartFailuresTech => m.videoStartFailuresTech
    case ZeroCirrEndedPlays => m.zeroCirrEndedPlays
  }
  /**
   * One call an adder makes: `addCount` or `addGauge`, with the metric name
   * before the `conviva.` prefix is put in front of it.
   */
  datatype Emission = AddCount(name: string, count: Int64) | AddGauge(name: string, value: real)

  const PercentageSuffix := ".percentage"
  const PerUniqueDeviceSuffix := ".per_unique_device"
  const PerEndedPlaySuffix := ".per_ended_play"

  /* The four hand-written `CreateMetricsFunc` values of the ended-plays and minutes-played families. */

  function AddAdEndedPlays(m: Metrics): seq<Emission>
  {
    match m.adEndedPlays
    case None => []
    case Some(r) => [AddCount("ad_ended_plays", r.count.value), AddGauge("ad_ended_plays" + PerUniqueDeviceSuffix, r.perUniqueDevice)]
  }

  function AddAdMinutesPlayed(m: Metrics): seq<Emission>
  {
    match m.adMinutesPlayed
    case None => []
    case Some(r) => [AddCount("ad_minutes_played", r.endedPlays.count.value), AddGauge("ad_minutes_played" + PerEndedPlaySuffix, r.perEndedPlay)]
  }

  function AddEndedPlays(m: Metrics): seq<Emission>
  {
    match m.endedPlays
    case None => []
    case Some(r) => [AddCount("ended_plays", r.count.value), AddGauge("ended_plays" + PerUniqueDeviceSuffix, r.perUniqueDevice)]
  }

  function AddMinutesPlayed(m: Metrics): seq<Emission>
  {
    match m.minutesPlayed
    case None => []
    case Some(r) => [AddCount("minutes_played", r.endedPlays.count.value), AddGauge("minutes_played" + PerEndedPlaySuffix, r.perEndedPlay)]
  }

  /** Names for the four functions above, so that a catalog entry can hold one. */
  datatype MetricsFunc = AdEndedPlaysAdder | AdMinutesPlayedAdder | EndedPlaysAdder | MinutesPlayedAdder

  function Calls(fn: MetricsFunc, m: Metrics): seq<Emission>
  {
    match fn
    case AdEndedPlaysAdder => AddAdEndedPlays(m)
    case AdMinutesPlayedAdder => AddAdMinutesPlayed(m)
    case EndedPlaysAdder => AddEndedPlays(m)
    case MinutesPlayedAdder => AddMinutesPlayed(m)
  }

  /**
   * A catalog entry, as built by `createCountFunc`, `createGaugeFunc`,
   * `createCountPercentageFunc` or `createMetricsFunc`. The accessor closure
   * of the first three is represented by the field it reads.
   */
  datatype Adder =
    | CountAdder(name: string, countField: CountField)
    | GaugeAdder(name: string, gaugeField: GaugeField)
    | CountPercentageAdder(name: string, countPercentageField: CountPercentageField)
    | MetricsAdder(fn: MetricsFunc)

  function CreateCountFunc(name: string, f: CountField): Adder
  {
    CountAdder(name, f)
  }

  function CreateGaugeFunc(name: string, f: GaugeField): Adder
  {
    GaugeAdder(name, f)
  }

  function CreateCountPercentageFunc(name: string, f: CountPercentageField): Adder
  {
    CountPercentageAdder(name, f)
  }

  function CreateMetricsFunc(fn: MetricsFunc): Adder
  {
    MetricsAdder(fn)
  }

  /**
   * The calls adder `a` makes for snapshot `m`, in order; the interpreter
   * makes each call only if the one before it succeeded.
   */
  function Emissions(a: Adder, m: Metrics): seq<Emission>
  {
    match a
    case CountAdder(name, f) =>
      if GetCount(m, f).Some? then [AddCount(name, GetCount(m, f).value.value)] else []
    case GaugeAdder(name, f) =>
      if GetGauge(m, f).Some? then [AddGauge(name, GetGauge(m, f).value.value)] else []
    case CountPercentageAdder(name, f) =>
      if GetCountPercentage(m, f).Some? then
        var cp := GetCountPercentage(m, f).value;
        [AddCount(name, cp.count.value), AddGauge(name + PercentageSuffix, cp.percentage.value)]
      else []
    case MetricsAdder(fn) => Calls(fn, m)
  }

  /* The metric name of each field-reading catalog entry, as the source spells it. */

  const AbandonmentName: string := "abandonment"
  const AbandonmentWithPreRollName: string := "abandonment_with_pre_roll"
  const AbandonmentWithoutPreRollName: string := "abandonment_without_pre_roll"
  const AdActualDurationName: string := "ad_actual_duration"
  const AdAttemptsName: string := "ad_attempts"
  const AdBitrateName: string := "ad_bitrate"
  const AdCompletedCreativePlaysName: string := "ad_completed_creative_plays"
  const AdConcurrentPlaysName: string := "ad_concurrent_plays"
  const AdConnectionInducedRebufferingRatioName: string := "ad_connection_induced_rebuffering_ratio"
  const AdExitBeforeVideoStartsName: string := "ad_exit_before_video_starts"
  const AdFramerateName: string := "ad_framerate"
  const AdPercentageCompleteName: string := "ad_percentage_complete"
  const AdPlaysName: string := "ad_plays"
  const AdRebufferingRatioName: string := "ad_rebuffering_ratio"
  const AdUniqueDevicesName: string := "ad_unique_devices"
  const AdVideoPlaybackFailuresName: string := "ad_video_playback_failures"
  const AdVideoRestartTimeName: string := "ad_video_restart_time"
  const AdVideoStartFailuresName: string := "ad_video_start_failures"
  const AdVideoStartTimeName: string := "ad_video_start_time"
  const AttemptsName: string := "attempts"
  const AttemptsWithPreRollName: string := "attempts_with_pre_roll"
  const AttemptsWithoutPreRollName: string := "attempts_without_pre_roll"
  const BadSessionName: string := "bad_session"
  const BadSessionAverageLifePlayingTimeMinsName: string := "bad_session_average_life_playing_time_mins"
  const BadUniqueDevicesName: string := "bad_unique_devices"
  const BadUniqueViewersName: string := "bad_unique_viewers"
  const BitrateName: string := "bitrate"
  const ConcurrentPlaysName: string := "concurrent_plays"
  const ConnectionInducedRebufferingRatioName: string := "connection_induced_rebuffering_ratio"
  const EndedPlaysWithAdsName: string := "ended_plays_with_ads"
  const EndedPlaysWithoutAdsName: string := "ended_plays_without_ads"
  const ExitBeforeVideoStartsName: string := "exit_before_video_starts"
  const FramerateName: string := "framerate"
  const GoodSessionName: string := "good_session"
  const GoodSessionAverageLifePlayingTimeMinsName: string := "good_session_average_life_playing_time_mins"
  const GoodUniqueDevicesName: string := "good_unique_devices"
  const GoodUniqueViewersName: string := "good_unique_viewers"
  const HighRebufferingName: string := "high_rebuffering"
  const HighRebufferingWithAdsName: string := "high_rebuffering_with_ads"
  const HighRebufferingWithoutAdsName: string := "high_rebuffering_without_ads"
  const HighStartupTimeName: string := "high_startup_time"
  const HighStartupTimeWithPreRollName: string := "high_startup_time_with_pre_roll"
  const HighStartupTimeWithoutPreRollName: string := "high_startup_time_without_pre_roll"
  const IntervalMinutesPlayedName: string := "interval_minutes_played"
  const LowBitrateName: string := "low_bitrate"
  const LowBitrateWithAdsName: string := "low_bitrate_with_ads"
  const LowBitrateWithoutAdsName: string := "low_bitrate_without_ads"
  const NonZeroCirrEndedPlaysName: string := "non_zero_cirr_ended_plays"
  const PercentageCompleteName: string := "percentage_complete"
  const PlaysName: string := "plays"
  const RebufferingRatioName: string := "rebuffering_ratio"
  const SpiStreamsName: string := "spi_streams"
  const SpiUniqueDevicesName: string := "spi_unique_devices"
  const SpiUniqueViewersName: string := "spi_unique_viewers"
  const StreamingPerformanceIndexName: string := "streaming_performance_index"
  const UniqueDevicesName: string := "unique_devices"
  const VideoPlaybackFailuresName: string := "video_playback_failures"
  const VideoPlaybackFailuresBusinessName: string := "video_playback_failures_business"
  const VideoPlaybackFailuresTechName: string := "video_playback_failures_tech"
  const VideoPlaybackFailuresTechWithAdsName: string := "video_playback_failures_tech_with_ads"
  const VideoPlaybackFailuresTechWithoutAdsName: string := "video_playback_failures_tech_without_ads"
  const VideoRestartTimeName: string := "video_restart_time"
  const VideoStartFailuresName: string := "video_start_failures"
  const VideoStartFailuresBusinessName: string := "video_start_failures_business"
  const VideoStartFailuresTechName: string := "video_start_failures_tech"
  const VideoStartFailuresTechWithPreRollName: string := "video_start_failures_tech_with_pre_roll"
  const VideoStartFailuresTechWithoutPreRollName: string := "video_start_failures_tech_without_pre_roll"
  const VideoStartTimeName: string := "video_start_time"
  const ZeroCirrEndedPlaysName: string := "zero_cirr_ended_plays"

  /**
   * Entry `i` of the catalog `initMetrics` builds: the adder for the `i`-th
   * optional field of `Metrics`, in field order. The entries are grouped in
   * blocks of ten so that each lookup is a short case analysis.
   */
  function CatalogEntry(i: nat): Adder
    requires i < MetricFieldCount
  {
    if i < 10 then CatalogBlock0(i)
    else if i < 20 then CatalogBlock1(i - 10)
    else if i < 30 then CatalogBlock2(i - 20)
    else if i < 40 then CatalogBlock3(i - 30)
    else if i < 50 then CatalogBlock4(i - 40)
    else if i < 60 then CatalogBlock5(i - 50)
    else if i < 70 then CatalogBlock6(i - 60)
    else CatalogBlock7(i - 70)
  }

  /** Entries 0 to 9 of the catalog: entry `j`. */
  function CatalogBlock0(j: nat): Adder
    requires j < 10
  {
    match j
    case 0 => CreateCountPercentageFunc(AbandonmentName, Abandonment)
    case 1 => CreateGaugeFunc(AbandonmentWithPreRollName, AbandonmentWithPreRoll)
    case 2 => CreateGaugeFunc(AbandonmentWithoutPreRollName, AbandonmentWithoutPreRoll)
    case 3 => CreateGaugeFunc(AdActualDurationName, AdActualDuration)
    case 4 => CreateCountFunc(AdAttemptsName, AdAttempts)
    case 5 => CreateGaugeFunc(AdBitrateName, AdBitrate)
    case 6 => CreateGaugeFunc(AdCompletedCreativePlaysName, AdCompletedCreativePlays)
    case 7 => CreateCountFunc(AdConcurrentPlaysName, AdConcurrentPlays)
    case 8 => CreateGaugeFunc(AdConnectionInducedRebufferingRatioName, AdConnectionInducedRebufferingRatio)
    case _ => CreateMetricsFunc(AdEndedPlaysAdder)  // 9
  }

  /** Entries 10 to 19 of the catalog: entry `10 + j`. */
  function CatalogBlock1(j: nat): Adder
    requires j < 10
  {
    match j
    case 0 => CreateCountPercentageFunc(AdExitBeforeVideoStartsName, AdExitBeforeVideoStarts)
    case 1 => CreateGaugeFunc(AdFramerateName, AdFramerate)
    case 2 => CreateMetricsFunc(AdMinutesPlayedAdder)
    case 3 => CreateGaugeFunc(AdPercentageCompleteName, AdPercentageComplete)
    case 4 => CreateCountPercentageFunc(AdPlaysName, AdPlays)
    case 5 => CreateGaugeFunc(AdRebufferingRatioName, AdRebufferingRatio)
    case 6 => CreateCountFunc(AdUniqueDevicesName, AdUniqueDevices)
    case 7 => CreateCountPercentageFunc(AdVideoPlaybackFailuresName, AdVideoPlaybackFailures)
    case 8 => CreateGaugeFunc(AdVideoRestartTimeName, AdVideoRestartTime)
    case _ => CreateCountPercentageFunc(AdVideoStartFailuresName, AdVideoStartFailures)  // 9
  }

  /** Entries 20 to 29 of the catalog: entry `20 + j`. */
  function CatalogBlock2(j: nat): Adder
    requires j < 10
  {
    match j
    case 0 => CreateGaugeFunc(AdVideoStartTimeName, AdVideoStartTime)
    case 1 => CreateCountFunc(AttemptsName, Attempts)
    case 2 => CreateCountPercentageFunc(AttemptsWithPreRollName, AttemptsWithPreRoll)
    case 3 => CreateCountPercentageFunc(AttemptsWithoutPreRollName, AttemptsWithoutPreRoll)
    case 4 => CreateCountPercentageFunc(BadSessionName, BadSession)
    case 5 => CreateGaugeFunc(BadSessionAverageLifePlayingTimeMinsName, BadSessionAverageLifePlayingTimeMins)
    case 6 => CreateCountPercentageFunc(BadUniqueDevicesName, BadUniqueDevices)
    case 7 => CreateCountPercentageFunc(BadUniqueViewersName, BadUniqueViewers)
    case 8 => CreateGaugeFunc(BitrateName, GaugeField.Bitrate)
    case _ => CreateCountFunc(ConcurrentPlaysName, ConcurrentPlays)  // 9
  }

  /** Entries 30 to 39 of the catalog: entry `30 + j`. */
  function CatalogBlock3(j: nat): Adder
    requires j < 10
  {
    match j
    case 0 => CreateGaugeFunc(ConnectionInducedRebufferingRatioName, ConnectionInducedRebufferingRatio)
    case 1 => CreateMetricsFunc(EndedPlaysAdder)
    case 2 => CreateCountPercentageFunc(EndedPlaysWithAdsName, EndedPlaysWithAds)
    case 3 => CreateCountPercentageFunc(EndedPlaysWithoutAdsName, EndedPlaysWithoutAds)
    case 4 => CreateCountPercentageFunc(ExitBeforeVideoStartsName, ExitBeforeVideoStarts)
    case 5 => CreateGaugeFunc(FramerateName, GaugeField.Framerate)
    case 6 => CreateCountFunc(GoodSessionName, GoodSession)
    case 7 => CreateGaugeFunc(GoodSessionAverageLifePlayingTimeMinsName, GoodSessionAverageLifePlayingTimeMins)
    case 8 => CreateCountFunc(GoodUniqueDevicesName, GoodUniqueDevices)
    case _ => CreateCountFunc(GoodUniqueViewersName, GoodUniqueViewers)  // 9
  }

  /** Entries 40 to 49 of the catalog: entry `40 + j`. */
  function CatalogBlock4(j: nat): Adder
    requires j < 10
  {
    match j
    case 0 => CreateCountPercentageFunc(HighRebufferingName, HighRebuffering)
    case 1 => CreateGaugeFunc(HighRebufferingWithAdsName, HighRebufferingWithAds)
    case 2 => CreateGaugeFunc(HighRebufferingWithoutAdsName, HighRebufferingWithoutAds)
    case 3 => CreateCountPercentageFunc(HighStartupTimeName, HighStartupTime)
    case 4 => CreateGaugeFunc(HighStartupTimeWithPreRollName, HighStartupTimeWithPreRoll)
    case 5 => CreateGaugeFunc(HighStartupTimeWithoutPreRollName, HighStartupTimeWithoutPreRoll)
    case 6 => CreateCountFunc(IntervalMinutesPlayedName, IntervalMinutesPlayed)
    case 7 => CreateCountPercentageFunc(LowBitrateName, LowBitrate)
    case 8 => CreateGaugeFunc(LowBitrateWithAdsName, LowBitrateWithAds)
    case _ => CreateGaugeFunc(LowBitrateWithoutAdsName, LowBitrateWithoutAds)  // 9
  }

  /** Entries 50 to 59 of the catalog: entry `50 + j`. */
  function CatalogBlock5(j: nat): Adder
    requires j < 10
  {
    match j
    case 0 => CreateMetricsFunc(MinutesPlayedAdder)
    case 1 => CreateCountPercentageFunc(NonZeroCirrEndedPlaysName, NonZeroCirrEndedPlays)
    case 2 => CreateGaugeFunc(PercentageCompleteName, PercentageComplete)
    case 3 => CreateCountPercentageFunc(PlaysName, Plays)
    case 4 => CreateGaugeFunc(RebufferingRatioName, RebufferingRatio)
    case 5 => CreateCountFunc(SpiStreamsName, SpiStreams)
    case 6 => CreateCountFunc(SpiUniqueDevicesName, SpiUniqueDevices)
    case 7 => CreateCountFunc(SpiUniqueViewersName, SpiUniqueViewers)
    case 8 => CreateGaugeFunc(StreamingPerformanceIndexName, StreamingPerformanceIndex)
    case _ => CreateCountFunc(UniqueDevicesName, UniqueDevices)  // 9
  }

  /** Entries 60 to 69 of the catalog: entry `60 + j`. */
  function CatalogBlock6(j: nat): Adder
    requires j < 10
  {
    match j
    case 0 => CreateCountPercentageFunc(VideoPlaybackFailuresName, VideoPlaybackFailures)
    case 1 => CreateCountPercentageFunc(VideoPlaybackFailuresBusinessName, VideoPlaybackFailuresBusiness)
    case 2 => CreateCountPercentageFunc(VideoPlaybackFailuresTechName, VideoPlaybackFailuresTech)
    case 3 => CreateGaugeFunc(VideoPlaybackFailuresTechWithAdsName, VideoPlaybackFailuresTechWithAds)
    case 4 => CreateGaugeFunc(VideoPlaybackFailuresTechWithoutAdsName, VideoPlaybackFailuresTechWithoutAds)
    case 5 => CreateGaugeFunc(VideoRestartTimeName, VideoRestartTime)
    case 6 => CreateCountPercentageFunc(VideoStartFailuresName, VideoStartFailures)
    case 7 => CreateCountPercentageFunc(VideoStartFailuresBusinessName, VideoStartFailuresBusiness)
    case 8 => CreateCountPercentageFunc(VideoStartFailuresTechName, VideoStartFailuresTech)
    case _ => CreateGaugeFunc(VideoStartFailuresTechWithPreRollName, VideoStartFailuresTechWithPreRoll)  // 9
  }

  /** Entries 70 to 72 of the catalog: entry `70 + j`. */
  function CatalogBlock7(j: nat): Adder
    requires j < 3
  {
    match j
    case 0 => CreateGaugeFunc(VideoStartFailuresTechWithoutPreRollName, VideoStartFailuresTechWithoutPreRoll)
    case 1 => CreateGaugeFunc(VideoStartTimeName, VideoStartTime)
    case _ => CreateCountPercentageFunc(ZeroCirrEndedPlaysName, ZeroCirrEndedPlays)  // 2
  }

  /** The catalog `initMetrics` builds: one adder per optional field of `Metrics`, in field order. */
  const MetricAdders: seq<Adder> := seq(MetricFieldCount, i requires 0 <= i < MetricFieldCount => CatalogEntry(i))


  /** A snapshot with every field absent makes no adder call anything. */
  lemma EmptySnapshotIsSilent(ts: TimeStamp)
    ensures forall a: Adder :: Emissions(a, EmptyMetrics(ts)) == []
  {
  }

  /**
   * The catalog holds one entry per optional field of a snapshot, and entry
   * `i` makes a call exactly when field `i` is present.
   */
  lemma CatalogCoversEveryField(m: Metrics, i: nat)
    requires i < |MetricAdders|
    ensures |MetricAdders| == MetricFieldCount
    ensures Emissions(MetricAdders[i], m) == [] <==> !FieldPresent(m, i)
  {
    EntryCoversField(m, i);
  }

  /** Entry `i` makes a call exactly when field `i` of the snapshot is present. */
  lemma EntryCoversField(m: Metrics, i: nat)
    requires i < MetricFieldCount
    ensures Emissions(CatalogEntry(i), m) == [] <==> !FieldPresent(m, i)
  {
    if i < 10 {
      BlockCoversFields0(m, i);
    } else if i < 20 {
      BlockCoversFields1(m, i - 10);
    } else if i < 30 {
      BlockCoversFields2(m, i - 20);
    } else if i < 40 {
      BlockCoversFields3(m, i - 30);
    } else if i < 50 {
      BlockCoversFields4(m, i - 40);
    } else if i < 60 {
      BlockCoversFields5(m, i - 50);
    } else if i < 70 {
      BlockCoversFields6(m, i - 60);
    } else {
      BlockCoversFields7(m, i - 70);
    }
  }

  /** `EntryCoversField` for entry `j`. */
  lemma BlockCoversFields0(m: Metrics, j: nat)
    requires j < 10
    ensures Emissions(CatalogBlock0(j), m) == [] <==> !FieldPresentBlock0(m, j)
  {
    match j
    case 0 => {}
    case 1 => {}
    case 2 => {}
    case 3 => {}
    case 4 => {}
    case 5 => {}
    case 6 => {}
    case 7 => {}
    case 8 => {}
    case _ => {}
  }

  /** `EntryCoversField` for entry `10 + j`. */
  lemma BlockCoversFields1(m: Metrics, j: nat)
    requires j < 10
    ensures Emissions(CatalogBlock1(j), m) == [] <==> !FieldPresentBlock1(m, j)
  {
    match j
    case 0 => {}
    case 1 => {}
    case 2 => {}
    case 3 => {}
    case 4 => {}
    case 5 => {}
    case 6 => {}
    case 7 => {}
    case 8 => {}
    case _ => {}
  }

  /** `EntryCoversField` for entry `20 + j`. */
  lemma BlockCoversFields2(m: Metrics, j: nat)
    requires j < 10
    ensures Emissions(CatalogBlock2(j), m) == [] <==> !FieldPresentBlock2(m, j)
  {
    match j
    case 0 => {}
    case 1 => {}
    case 2 => {}
    case 3 => {}
    case 4 => {}
    case 5 => {}
    case 6 => {}
    case 7 => {}
    case 8 => {}
    case _ => {}
  }

  /** `EntryCoversField` for entry `30 + j`. */
  lemma BlockCoversFields3(m: Metrics, j: nat)
    requires j < 10
    ensures Emissions(CatalogBlock3(j), m) == [] <==> !FieldPresentBlock3(m, j)
  {
    match j
    case 0 => {}
    case 1 => {}
    case 2 => {}
    case 3 => {}
    case 4 => {}
    case 5 => {}
    case 6 => {}
    case 7 => {}
    case 8 => {}
    case _ => {}
  }

  /** `EntryCoversField` for entry `40 + j`. */
  lemma BlockCoversFields4(m: Metrics, j: nat)
    requires j < 10
    ensures Emissions(CatalogBlock4(j), m) == [] <==> !FieldPresentBlock4(m, j)
  {
    match j
    case 0 => {}
    case 1 => {}
    case 2 => {}
    case 3 => {}
    case 4 => {}
    case 5 => {}
    case 6 => {}
    case 7 => {}
    case 8 => {}
    case _ => {}
  }

  /** `EntryCoversField` for entry `50 + j`. */
  lemma BlockCoversFields5(m: Metrics, j: nat)
    requires j < 10
    ensures Emissions(CatalogBlock5(j), m) == [] <==> !FieldPresentBlock5(m, j)
  {
    match j
    case 0 => {}
    case 1 => {}
    case 2 => {}
    case 3 => {}
    case 4 => {}
    case 5 => {}
    case 6 => {}
    case 7 => {}
    case 8 => {}
    case _ => {}
  }

  /** `EntryCoversField` for entry `60 + j`. */
  lemma BlockCoversFields6(m: Metrics, j: nat)
    requires j < 10
    ensures Emissions(CatalogBlock6(j), m) == [] <==> !FieldPresentBlock6(m, j)
  {
    match j
    case 0 => {}
    case 1 => {}
    case 2 => {}
    case 3 => {}
    case 4 => {}
    case 5 => {}
    case 6 => {}
    case 7 => {}
    case 8 => {}
    case _ => {}
  }

  /** `EntryCoversField` for entry `70 + j`. */
  lemma BlockCoversFields7(m: Metrics, j: nat)
    requires j < 3
    ensures Emissions(CatalogBlock7(j), m) == [] <==> !FieldPresentBlock7(m, j)
  {
    match j
    case 0 => {}
    case 1 => {}
    case _ => {}
  }

  /**
   * The process-wide list of adders that `initMetrics` fills. It starts
   * empty; each call appends the whole catalog, so a second call would make
   * every entry run twice.
   */
  class Registry {
    var metricAdders: seq<Adder>

    constructor()
      ensures metricAdders == []
    {
      metricAdders := [];
    }

    method InitMetrics()
      modifies this
      ensures metricAdders == old(metricAdders) + MetricAdders
    {
      metricAdders := metricAdders + MetricAdders;
    }
  }
}
