/**
 * The record shapes of the metrics API: the typed metric values, the sparse
 * `Metrics` snapshot with one optional field per metric, and the flat and
 * dimensional response series (src/api/types.go).
 */
module Types {
  import opened Wrappers

  /** Go's int64. */
  type Int64 = x: int | -0x8000_0000_0000_0000 <= x < 0x8000_0000_0000_0000

  /* Metric value shapes. Go's float64 values are modelled as reals that are only passed through. */

  datatype Count = Count(value: Int64)
  datatype Gauge = Gauge(value: real)
  datatype Percentage = Percentage(value: real)
  /** Embeds a Count and a Percentage: a count and its percentage. */
  datatype CountPercentage = CountPercentage(count: Count, percentage: Percentage)
  datatype Ratio = Ratio(ratio: real)
  datatype Bitrate = Bitrate(bps: real)
  /** Embeds a Count: the count and the count per unique device. */
  datatype EndedPlays = EndedPlays(count: Count, perUniqueDevice: real)
  /** Embeds EndedPlays: a count, `per_unique_device` and `per_ended_play`. */
  datatype MinutesPlayed = MinutesPlayed(endedPlays: EndedPlays, perEndedPlay: real)
  datatype Framerate = Framerate(fps: real)

  datatype TimeStamp = TimeStamp(epochMs: Int64, isoDate: string)

  /**
   * One timestamped snapshot. Every metric field is optional (`None` is a
   * field the API left out); only the timestamp is always there. The fields
   * are in declaration order, which is also the order of the catalog.
   */
  datatype Metrics = Metrics(
    timeStamp: TimeStamp,
    abandonment:                           Option<CountPercentage>,
    abandonmentWithPreRoll:                Option<Percentage>,
    abandonmentWithoutPreRoll:             Option<Percentage>,
    adActualDuration:                      Option<Gauge>,
    adAttempts:                            Option<Count>,
    adBitrate:                             Option<Bitrate>,
    adCompletedCreativePlays:              Option<Gauge>,
    adConcurrentPlays:                     Option<Count>,
    adConnectionInducedRebufferingRatio:   Option<Ratio>,
    adEndedPlays:                          Option<EndedPlays>,
    adExitBeforeVideoStarts:               Option<CountPercentage>,  // wire key "exits_before_ad_start"
    adFramerate:                           Option<Framerate>,
    adMinutesPlayed:                       Option<MinutesPlayed>,
    adPercentageComplete:                  Option<Percentage>,
    adPlays:                               Option<CountPercentage>,
    adRebufferingRatio:                    Option<Ratio>,
    adUniqueDevices:                       Option<Count>,
    adVideoPlaybackFailures:               Option<CountPercentage>,
    adVideoRestartTime:                    Option<Gauge>,
    adVideoStartFailures:                  Option<CountPercentage>,
    adVideoStartTime:                      Option<Gauge>,
    attempts:                              Option<Count>,
    attemptsWithPreRoll:                   Option<CountPercentage>,
    attemptsWithoutPreRoll:                Option<CountPercentage>,
    badSession:                            Option<CountPercentage>,
    badSessionAverageLifePlayingTimeMins:  Option<Gauge>,
    badUniqueDevices:                      Option<CountPercentage>,
    badUniqueViewers:                      Option<CountPercentage>,
    bitrate:                               Option<Bitrate>,
    concurrentPlays:                       Option<Count>,
    connectionInducedRebufferingRatio:     Option<Ratio>,
    endedPlays:                            Option<EndedPlays>,
    endedPlaysWithAds:                     Option<CountPercentage>,
    endedPlaysWithoutAds:                  Option<CountPercentage>,
    exitBeforeVideoStarts:                 Option<CountPercentage>,
    framerate:                             Option<Framerate>,
    goodSession:                           Option<Count>,
    goodSessionAverageLifePlayingTimeMins: Option<Gauge>,
    goodUniqueDevices:                     Option<Count>,
    goodUniqueViewers:                     Option<Count>,
    highRebuffering:                       Option<CountPercentage>,
    highRebufferingWithAds:                Option<Percentage>,
    highRebufferingWithoutAds:             Option<Percentage>,
    highStartupTime:                       Option<CountPercentage>,
    highStartupTimeWithPreRoll:            Option<Percentage>,
    highStartupTimeWithoutPreRoll:         Option<Percentage>,
    intervalMinutesPlayed:                 Option<Count>,
    lowBitrate:                            Option<CountPercentage>,
    lowBitrateWithAds:                     Option<Percentage>,
    lowBitrateWithoutAds:                  Option<Percentage>,
    minutesPlayed:                         Option<MinutesPlayed>,
    nonZeroCirrEndedPlays:                 Option<CountPercentage>,
    percentageComplete:                    Option<Percentage>,
    plays:                                 Option<CountPercentage>,
    rebufferingRatio:                      Option<Ratio>,
    spiStreams:                            Option<Count>,
    spiUniqueDevices:                      Option<Count>,
    spiUniqueViewers:                      Option<Count>,
    streamingPerformanceIndex:             Option<Gauge>,
    uniqueDevices:                         Option<Count>,
    videoPlaybackFailures:                 Option<CountPercentage>,
    videoPlaybackFailuresBusiness:         Option<CountPercentage>,
    videoPlaybackFailuresTech:             Option<CountPercentage>,
    videoPlaybackFailuresTechWithAds:      Option<Percentage>,
    videoPlaybackFailuresTechWithoutAds:   Option<Percentage>,
    videoRestartTime:                      Option<Gauge>,
    videoStartFailures:                    Option<CountPercentage>,
    videoStartFailuresBusiness:            Option<CountPercentage>,
    videoStartFailuresTech:                Option<CountPercentage>,
    videoStartFailuresTechWithPreRoll:     Option<Percentage>,
    videoStartFailuresTechWithoutPreRoll:  Option<Percentage>,
    videoStartTime:                        Option<Gauge>,
    zeroCirrEndedPlays:                    Option<CountPercentage>
  )

  /** The number of optional metric fields of `Metrics`. */
  const MetricFieldCount := 73

  /**
   * Whether the `i`-th optional field of `m`, in declaration order, is
   * present (not nil). Indices past the last field are never present.
   */
  predicate FieldPresent(m: Metrics, i: nat)
  {
    if i < 10 then FieldPresentBlock0(m, i)
    else if i < 20 then FieldPresentBlock1(m, i - 10)
    else if i < 30 then FieldPresentBlock2(m, i - 20)
    else if i < 40 then FieldPresentBlock3(m, i - 30)
    else if i < 50 then FieldPresentBlock4(m, i - 40)
    else if i < 60 then FieldPresentBlock5(m, i - 50)
    else if i < 70 then FieldPresentBlock6(m, i - 60)
    else FieldPresentBlock7(m, i - 70)
  }

  /** Whether field `j` of `m` is present. */
  predicate FieldPresentBlock0(m: Metrics, j: nat)
    requires j < 10
  {
    match j
    case 0 => m.abandonment.Some?
    case 1 => m.abandonmentWithPreRoll.Some?
    case 2 => m.abandonmentWithoutPreRoll.Some?
    case 3 => m.adActualDuration.Some?
    case 4 => m.adAttempts.Some?
    case 5 => m.adBitrate.Some?
    case 6 => m.adCompletedCreativePlays.Some?
    case 7 => m.adConcurrentPlays.Some?
    case 8 => m.adConnectionInducedRebufferingRatio.Some?
    case _ => m.adEndedPlays.Some?  // 9
  }

  /** Whether field `10 + j` of `m` is present. */
  predicate FieldPresentBlock1(m: Metrics, j: nat)
    requires j < 10
  {
    match j
    case 0 => m.adExitBeforeVideoStarts.Some?
    case 1 => m.adFramerate.Some?
    case 2 => m.adMinutesPlayed.Some?
    case 3 => m.adPercentageComplete.Some?
    case 4 => m.adPlays.Some?
    case 5 => m.adRebufferingRatio.Some?
    case 6 => m.adUniqueDevices.Some?
    case 7 => m.adVideoPlaybackFailures.Some?
    case 8 => m.adVideoRestartTime.Some?
    case _ => m.adVideoStartFailures.Some?  // 9
  }

  /** Whether field `20 + j` of `m` is present. */
  predicate FieldPresentBlock2(m: Metrics, j: nat)
    requires j < 10
  {
    match j
    case 0 => m.adVideoStartTime.Some?
    case 1 => m.attempts.Some?
    case 2 => m.attemptsWithPreRoll.Some?
    case 3 => m.attemptsWithoutPreRoll.Some?
    case 4 => m.badSession.Some?
    case 5 => m.badSessionAverageLifePlayingTimeMins.Some?
    case 6 => m.badUniqueDevices.Some?
    case 7 => m.badUniqueViewers.Some?
    case 8 => m.bitrate.Some?
    case _ => m.concurrentPlays.Some?  // 9
  }

  /** Whether field `30 + j` of `m` is present. */
  predicate FieldPresentBlock3(m: Metrics, j: nat)
    requires j < 10
  {
    match j
    case 0 => m.connectionInducedRebufferingRatio.Some?
    case 1 => m.endedPlays.Some?
    case 2 => m.endedPlaysWithAds.Some?
    case 3 => m.endedPlaysWithoutAds.Some?
    case 4 => m.exitBeforeVideoStarts.Some?
    case 5 => m.framerate.Some?
    case 6 => m.goodSession.Some?
    case 7 => m.goodSessionAverageLifePlayingTimeMins.Some?
    case 8 => m.goodUniqueDevices.Some?
    case _ => m.goodUniqueViewers.Some?  // 9
  }

  /** Whether field `40 + j` of `m` is present. */
  predicate FieldPresentBlock4(m: Metrics, j: nat)
    requires j < 10
  {
    match j
    case 0 => m.highRebuffering.Some?
    case 1 => m.highRebufferingWithAds.Some?
    case 2 => m.highRebufferingWithoutAds.Some?
    case 3 => m.highStartupTime.Some?
    case 4 => m.highStartupTimeWithPreRoll.Some?
    case 5 => m.highStartupTimeWithoutPreRoll.Some?
    case 6 => m.intervalMinutesPlayed.Some?
    case 7 => m.lowBitrate.Some?
    case 8 => m.lowBitrateWithAds.Some?
    case _ => m.lowBitrateWithoutAds.Some?  // 9
  }

  /** Whether field `50 + j` of `m` is present. */
  predicate FieldPresentBlock5(m: Metrics, j: nat)
    requires j < 10
  {
    match j
    case 0 => m.minutesPlayed.Some?
    case 1 => m.nonZeroCirrEndedPlays.Some?
    case 2 => m.percentageComplete.Some?
    case 3 => m.plays.Some?
    case 4 => m.rebufferingRatio.Some?
    case 5 => m.spiStreams.Some?
    case 6 => m.spiUniqueDevices.Some?
    case 7 => m.spiUniqueViewers.Some?
    case 8 => m.streamingPerformanceIndex.Some?
    case _ => m.uniqueDevices.Some?  // 9
  }

  /** Whether field `60 + j` of `m` is present. */
  predicate FieldPresentBlock6(m: Metrics, j: nat)
    requires j < 10
  {
    match j
    case 0 => m.videoPlaybackFailures.Some?
    case 1 => m.videoPlaybackFailuresBusiness.Some?
    case 2 => m.videoPlaybackFailuresTech.Some?
    case 3 => m.videoPlaybackFailuresTechWithAds.Some?
    case 4 => m.videoPlaybackFailuresTechWithoutAds.Some?
    case 5 => m.videoRestartTime.Some?
    case 6 => m.videoStartFailures.Some?
    case 7 => m.videoStartFailuresBusiness.Some?
    case 8 => m.videoStartFailuresTech.Some?
    case _ => m.videoStartFailuresTechWithPreRoll.Some?  // 9
  }

  /** Whether field `70 + j` of `m` is present, for `j` below 3; false past it. */
  predicate FieldPresentBlock7(m: Metrics, j: nat)
  {
    match j
    case 0 => m.videoStartFailuresTechWithoutPreRoll.Some?
    case 1 => m.videoStartTime.Some?
    case 2 => m.zeroCirrEndedPlays.Some?
    case _ => false
  }

  /** A snapshot at `ts` in which every metric field is absent. */
  function EmptyMetrics(ts: TimeStamp): (m: Metrics)
    ensures m.timeStamp == ts
  {
    Metrics(
      ts,
      None,
      None,
      None,
      None,
      None,
      None,
      None,
      None,
      None,
      None,
      None,
      None,
      None,
      None,
      None,
      None,
      None,
      None,
      None,
      None,
      None,
      None,
      None,
      None,
      None,
      None,
      None,
      None,
      None,
      None,
      None,
      None,
      None,
      None,
      None,
      None,
      None,
      None,
      None,
      None,
      None,
      None,
      None,
      None,
      None,
      None,
      None,
      None,
      None,
      None,
      None,
      None,
      None,
      None,
      None,
      None,
      None,
      None,
      None,
      None,
      None,
      None,
      None,
      None,
      None,
      None,
      None,
      None,
      None,
      None,
      None,
      None,
      None
    )
  }

  /** A dimension key and value, as the API returns it with each breakdown. */
  datatype Dimension = Dimension(key: string, value: string, description: string)

  /** The metrics of one dimension value. */
  datatype DimensionalData = DimensionalData(dimension: Dimension, metrics: Metrics)

  /** One element of a dimensional series: a timestamp and one entry per dimension value, in response order. */
  datatype Dimensions = Dimensions(timeStamp: TimeStamp, dimensionalData: seq<DimensionalData>)

  /** The totals over the requested window. */
  datatype Total = Total(metrics: Metrics)

  /** A flat response: the time series and the totals. */
  datatype MetricData = MetricData(timeSeries: seq<Metrics>, total: Total)

  /** A dimensional response: the time series, per dimension value, and the totals. */
  datatype DimMetricData = DimMetricData(timeSeries: seq<Dimensions>, total: Total)
}
