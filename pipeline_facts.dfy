/**
 * What the extraction pipeline promises about the points it registers:
 * their names, timestamps and dimension tags, what each entry shape emits,
 * and where a walk stops.
 */
module PipelineFacts {
  import opened Wrappers
  import opened Types
  import opened Errors
  import opened Catalog
  import opened Sink
  import opened Pipeline
  import opened Text

  /**
   * A point as `newMetric` registers it: named `conviva.<name>`, stamped
   * with `ts`, and tagged with the key and value of `d` exactly when a
   * dimension is given.
   */
  predicate WellStamped(p: Point, ts: int, d: Option<Dimension>)
  {
    StartsWith(p.name, MetricPrefix) && p.timestampMs == ts
    && (p.dimension.Some? <==> d.Some?)
    && (d.Some? ==> p.dimension == Some((d.value.key, d.value.value)))
  }

  /** Every point built from a list of calls is well stamped. */
  lemma StampedPoints(es: seq<Emission>, ts: int, d: Option<Dimension>)
    ensures forall p <- StampAll(es, ts, d) :: WellStamped(p, ts, d)
  {
    var ps := StampAll(es, ts, d);
    forall p <- ps ensures WellStamped(p, ts, d) {
      var k :| 0 <= k < |ps| && ps[k] == p;
      PrefixOfConcat(MetricPrefix, es[k].name);
    }
  }

  /** Every element of a concatenation comes from one of its pieces. */
  lemma {:induction false} FlattenMembers<T>(ss: seq<seq<T>>)
    ensures forall x <- Flatten(ss) :: exists s <- ss :: x in s
  {
    if ss != [] {
      FlattenMembers(ss[..|ss| - 1]);
      forall x <- Flatten(ss) ensures exists s <- ss :: x in s {
        if x in Flatten(ss[..|ss| - 1]) {
          var s :| s in ss[..|ss| - 1] && x in s;
          assert s in ss;
        } else {
          assert x in ss[|ss| - 1];
        }
      }
    }
  }

  /** Every point the catalog walk attempts is well stamped. */
  lemma CatalogPointsStamped(adders: seq<Adder>, m: Metrics, ts: int, d: Option<Dimension>)
    ensures forall p <- CatalogPoints(adders, m, ts, d) :: WellStamped(p, ts, d)
  {
    var pieces := PointsPerAdder(adders, m, ts, d);
    FlattenMembers(pieces);
    forall s <- pieces ensures forall p <- s :: WellStamped(p, ts, d) {
      var j :| 0 <= j < |pieces| && pieces[j] == s;
      StampedPoints(Emissions(adders[j], m), ts, d);
    }
  }

  /** The prefix of a point list that the entity keeps holds only points of that list. */
  lemma AcceptedAreAttempted(sdk: Sdk, ps: seq<Point>)
    ensures forall p <- Accepted(sdk, ps) :: p in ps
  {
    var r := Accepted(sdk, ps);
    forall p <- r ensures p in ps {
      var k :| 0 <= k < |r| && r[k] == p;
      assert ps[k] == p;
    }
  }

  /**
   * The flat walk registers only points named `conviva.<name>`, stamped
   * with the snapshot's own `epoch_ms`, and with no dimension.
   */
  lemma FlatWalkPoints(sdk: Sdk, adders: seq<Adder>, m: Metrics)
    ensures forall p <- Accepted(sdk, SnapshotPoints(adders, m)) ::
      StartsWith(p.name, MetricPrefix) && p.timestampMs == m.timeStamp.epochMs && p.dimension.None?
  {
    CatalogPointsStamped(adders, m, m.timeStamp.epochMs, None);
    AcceptedAreAttempted(sdk, SnapshotPoints(adders, m));
  }

  /**
   * The dimensional walk over one pair registers only points named
   * `conviva.<name>`, stamped with the series element's timestamp `ts`, and
   * tagged with that pair's own dimension key and value.
   */
  lemma DimensionalWalkPoints(sdk: Sdk, adders: seq<Adder>, ts: int, dd: DimensionalData)
    ensures forall p <- Accepted(sdk, DimensionalPoints(adders, ts, dd)) ::
      StartsWith(p.name, MetricPrefix) && p.timestampMs == ts
      && p.dimension == Some((dd.dimension.key, dd.dimension.value))
  {
    CatalogPointsStamped(adders, dd.metrics, ts, Some(dd.dimension));
    AcceptedAreAttempted(sdk, DimensionalPoints(adders, ts, dd));
  }

  /** A snapshot with every field absent registers nothing and fails nothing, flat or dimensional. */
  lemma EmptySnapshotAddsNothing(sdk: Sdk, adders: seq<Adder>, t: TimeStamp, ts: int, dim: Dimension)
    ensures SnapshotPoints(adders, EmptyMetrics(t)) == []
    ensures Accepted(sdk, SnapshotPoints(adders, EmptyMetrics(t))) == [] && SinkError(sdk, SnapshotPoints(adders, EmptyMetrics(t))).None?
    ensures DimensionalPoints(adders, ts, DimensionalData(dim, EmptyMetrics(t))) == []
  {
    var m := EmptyMetrics(t);
    EmptySnapshotIsSilent(t);
    FlattenSilent(PointsPerAdder(adders, m, t.epochMs, None));
    FlattenSilent(PointsPerAdder(adders, m, ts, Some(dim)));
  }

  /**
   * A count entry emits nothing when its field is absent, and otherwise
   * exactly one count point named `conviva.<name>` holding the count.
   */
  lemma CountEntry(name: string, f: CountField, m: Metrics, ts: int, d: Option<Dimension>)
    ensures var ps := AdderPoints(CreateCountFunc(name, f), m, ts, d);
      if GetCount(m, f).None? then ps == []
      else ps == [Point(CountKind, MetricPrefix + name, GetCount(m, f).value.value as real, ts, DimensionTag(d))]
  {
  }

  /**
   * A gauge entry emits nothing when its field is absent, and otherwise
   * exactly one gauge point named `conviva.<name>` holding the converted value.
   */
  lemma GaugeEntry(name: string, f: GaugeField, m: Metrics, ts: int, d: Option<Dimension>)
    ensures var ps := AdderPoints(CreateGaugeFunc(name, f), m, ts, d);
      if GetGauge(m, f).None? then ps == []
      else ps == [Point(GaugeKind, MetricPrefix + name, GetGauge(m, f).value.value, ts, DimensionTag(d))]
  {
  }

  /**
   * A count-and-percentage entry emits a count at `conviva.<name>` and then
   * a gauge at `conviva.<name>.percentage`; when the count is refused the
   * gauge is never attempted and the error names the count.
   */
  lemma CountPercentageEntry(sdk: Sdk, name: string, f: CountPercentageField, m: Metrics, ts: int, d: Option<Dimension>)
    requires GetCountPercentage(m, f).Some?
    ensures var cp := GetCountPercentage(m, f).value;
      var ps := AdderPoints(CreateCountPercentageFunc(name, f), m, ts, d);
      ps == [Point(CountKind, MetricPrefix + name, cp.count.value as real, ts, DimensionTag(d)),
             Point(GaugeKind, MetricPrefix + name + ".percentage", cp.percentage.value, ts, DimensionTag(d))]
      && (Rejected(sdk, ps[0]) ==> Accepted(sdk, ps) == [] && SinkError(sdk, ps) == Some(SinkRejected(MetricPrefix + name)))
  {
    var ps := AdderPoints(CreateCountPercentageFunc(name, f), m, ts, d);
    assert MetricPrefix + (name + PercentageSuffix) == MetricPrefix + name + ".percentage";
    if Rejected(sdk, ps[0]) {
      StopsAtRefusal(sdk, ps, 0);
    }
  }

  /** A count-and-percentage entry whose field is absent emits nothing. */
  lemma AbsentCountPercentageEntry(name: string, f: CountPercentageField, m: Metrics)
    requires GetCountPercentage(m, f).None?
    ensures Emissions(CreateCountPercentageFunc(name, f), m) == []
  {
  }

  /**
   * The ended-plays entries emit nothing when their field is absent, and
   * otherwise the count at `conviva.<name>` and then the per-device average
   * at `conviva.<name>.per_unique_device`.
   */
  lemma EndedPlaysEntries(fn: MetricsFunc, m: Metrics, ts: int, d: Option<Dimension>)
    requires fn == AdEndedPlaysAdder || fn == EndedPlaysAdder
    ensures var name := if fn == AdEndedPlaysAdder then "ad_ended_plays" else "ended_plays";
      var field := if fn == AdEndedPlaysAdder then m.adEndedPlays else m.endedPlays;
      var ps := AdderPoints(CreateMetricsFunc(fn), m, ts, d);
      if field.None? then Calls(fn, m) == [] && ps == []
      else
        Calls(fn, m) == [AddCount(name, field.value.count.value),
                         AddGauge(name + PerUniqueDeviceSuffix, field.value.perUniqueDevice)]
        && ps == [Point(CountKind, "conviva." + name, field.value.count.value as real, ts, DimensionTag(d)),
                  Point(GaugeKind, "conviva." + name + ".per_unique_device", field.value.perUniqueDevice, ts, DimensionTag(d))]
  {
    var name := if fn == AdEndedPlaysAdder then "ad_ended_plays" else "ended_plays";
    assert MetricPrefix + (name + PerUniqueDeviceSuffix) == "conviva." + name + ".per_unique_device";
  }

  /**
   * The minutes-played entries emit nothing when their field is absent, and
   * otherwise the count of the embedded ended plays at `conviva.<name>` and
   * then the per-ended-play average at `conviva.<name>.per_ended_play`; the
   * embedded per-device average is never emitted.
   */
  lemma MinutesPlayedEntries(fn: MetricsFunc, m: Metrics, ts: int, d: Option<Dimension>)
    requires fn == AdMinutesPlayedAdder || fn == MinutesPlayedAdder
    ensures var name := if fn == AdMinutesPlayedAdder then "ad_minutes_played" else "minutes_played";
      var field := if fn == AdMinutesPlayedAdder then m.adMinutesPlayed else m.minutesPlayed;
      var ps := AdderPoints(CreateMetricsFunc(fn), m, ts, d);
      if field.None? then Calls(fn, m) == [] && ps == []
      else
        Calls(fn, m) == [AddCount(name, field.value.endedPlays.count.value),
                         AddGauge(name + PerEndedPlaySuffix, field.value.perEndedPlay)]
        && ps == [Point(CountKind, "conviva." + name, field.value.endedPlays.count.value as real, ts, DimensionTag(d)),
                  Point(GaugeKind, "conviva." + name + ".per_ended_play", field.value.perEndedPlay, ts, DimensionTag(d))]
  {
    var name := if fn == AdMinutesPlayedAdder then "ad_minutes_played" else "minutes_played";
    assert MetricPrefix + (name + PerEndedPlaySuffix) == "conviva." + name + ".per_ended_play";
  }
}
