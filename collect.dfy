/**
 * One collection pass (src/metrics.go, src/config.go): the configured
 * metrics become requests, each request is dispatched on what the entry
 * selects, and every snapshot of every answer is walked through the catalog.
 * The pass stops at the first error, whether from the offsets, from a fetch
 * or from the SDK.
 */
module Collect {
  import opened Wrappers
  import opened Types
  import opened Errors
  import opened Sink
  import opened Catalog
  import opened Pipeline
  import opened PipelineFacts
  import opened Text
  import opened Query

  // ---------------------------------------------------------------- configuration

  const DefaultApiV3Url := "https://api.conviva.com/insights/3.0"

  /** One entry of the `metrics` list of the configuration. */
  datatype ConfigMetric = ConfigMetric(
    metric: string,
    metricGroup: string,
    names: seq<string>,
    dimensions: seq<string>,
    filters: Filters,
    startOffset: string,
    endOffset: string,
    granularity: string,
    realTime: Option<bool>)

  /** The integration's configuration, as already loaded. */
  datatype Config = Config(
    apiV3Url: string,
    startOffset: string,
    endOffset: string,
    granularity: string,
    realTime: Option<bool>,
    metrics: seq<ConfigMetric>)

  /** `applyDefaults`: a missing API URL becomes the default one; nothing else changes. */
  function ApplyDefaults(config: Config): (r: Config)
    ensures r.apiV3Url != ""
    ensures config.apiV3Url != "" ==> r == config
    ensures config.apiV3Url == "" ==> r == config.(apiV3Url := DefaultApiV3Url)
  {
    if config.apiV3Url == "" then config.(apiV3Url := DefaultApiV3Url) else config
  }

  // ---------------------------------------------------------------- dispatch

  /** What an entry asks for: a metric group, or a list of metric names. */
  datatype Selection = GroupSelection(group: string) | NamesSelection(names: seq<string>)

  /** The dispatch of `getMetricData`: the group wins over the single metric, which wins over the names. */
  function Select(m: ConfigMetric): (s: Option<Selection>)
    ensures m.metricGroup != "" ==> s == Some(GroupSelection(m.metricGroup))
    ensures m.metricGroup == "" && m.metric != "" ==> s == Some(NamesSelection([m.metric]))
    ensures m.metricGroup == "" && m.metric == "" && m.names != [] ==> s == Some(NamesSelection(m.names))
    ensures s.None? <==> m.metricGroup == "" && m.metric == "" && m.names == []
  {
    if m.metricGroup != "" then Some(GroupSelection(m.metricGroup))
    else if m.metric != "" then Some(NamesSelection([m.metric]))
    else if |m.names| > 0 then Some(NamesSelection(m.names))
    else None
  }

  /** The spec of `getMetricData`: no selection means no query and no error. */
  function MetricDataFor(
    c: Collector, m: ConfigMetric, keys: seq<string>,
    nowStart: int, nowEnd: int, parse: DurationParser, fetch: string -> Result<MetricData, Error>): Result<Option<MetricData>, Error>
    requires forall i :: 0 <= i < |keys| ==> keys[i] in m.filters
  {
    match Select(m)
    case None => Ok(None)
    case Some(s) =>
      var names := if s.GroupSelection? then [] else s.names;
      var path := if s.GroupSelection? then MakePath([], s.group, "") else MakePath(s.names, "", "");
      match Fetched(UrlFor(c, path, names, m.filters, keys, m.startOffset, m.endOffset, m.granularity, m.realTime,
                           nowStart, nowEnd, parse), fetch)
      case Err(e) => Err(e)
      case Ok(data) => Ok(Some(data))
  }

  /** The spec of `getMetricDataByDimension`: the same dispatch, grouped by `dimension`. */
  function DimMetricDataFor(
    c: Collector, m: ConfigMetric, dimension: string, keys: seq<string>,
    nowStart: int, nowEnd: int, parse: DurationParser, fetch: string -> Result<DimMetricData, Error>): Result<Option<DimMetricData>, Error>
    requires forall i :: 0 <= i < |keys| ==> keys[i] in m.filters
  {
    match Select(m)
    case None => Ok(None)
    case Some(s) =>
      var names := if s.GroupSelection? then [] else s.names;
      var path := if s.GroupSelection? then MakePath([], s.group, dimension) else MakePath(s.names, "", dimension);
      match Fetched(UrlFor(c, path, names, m.filters, keys, m.startOffset, m.endOffset, m.granularity, m.realTime,
                           nowStart, nowEnd, parse), fetch)
      case Err(e) => Err(e)
      case Ok(data) => Ok(Some(data))
  }

  /** `getMetricData`. */
  method GetMetricData(
    c: Collector, m: ConfigMetric,
    nowStart: int, nowEnd: int, parse: DurationParser, fetch: string -> Result<MetricData, Error>)
    returns (r: Result<Option<MetricData>, Error>, ghost keys: seq<string>)
    ensures forall i :: 0 <= i < |keys| ==> keys[i] in m.filters
    ensures Select(m).Some? ==> IsKeyOrder(keys, m.filters)
    ensures r == MetricDataFor(c, m, keys, nowStart, nowEnd, parse, fetch)
    ensures Select(m).None? ==> r == Ok(None)
    ensures Select(m).Some? && ResolveWindow(c, m.startOffset, m.endOffset, parse).Err? ==>
      r == Err(ResolveWindow(c, m.startOffset, m.endOffset, parse).error)
  {
    var data: Result<MetricData, Error>;
    if m.metricGroup != "" {
      data, keys := CollectMetricGroup(c, m.metricGroup, m.filters, m.startOffset, m.endOffset, m.granularity, m.realTime,
        nowStart, nowEnd, parse, fetch);
    } else if m.metric != "" {
      data, keys := CollectMetrics(c, [m.metric], m.filters, m.startOffset, m.endOffset, m.granularity, m.realTime,
        nowStart, nowEnd, parse, fetch);
    } else if |m.names| > 0 {
      data, keys := CollectMetrics(c, m.names, m.filters, m.startOffset, m.endOffset, m.granularity, m.realTime,
        nowStart, nowEnd, parse, fetch);
    } else {
      return Ok(None), [];
    }
    r := if data.Err? then Err(data.error) else Ok(Some(data.value));
  }

  /** `getMetricDataByDimension`. */
  method GetMetricDataByDimension(
    c: Collector, m: ConfigMetric, dimension: string,
    nowStart: int, nowEnd: int, parse: DurationParser, fetch: string -> Result<DimMetricData, Error>)
    returns (r: Result<Option<DimMetricData>, Error>, ghost keys: seq<string>)
    ensures forall i :: 0 <= i < |keys| ==> keys[i] in m.filters
    ensures Select(m).Some? ==> IsKeyOrder(keys, m.filters)
    ensures r == DimMetricDataFor(c, m, dimension, keys, nowStart, nowEnd, parse, fetch)
    ensures Select(m).None? ==> r == Ok(None)
    ensures Select(m).Some? && ResolveWindow(c, m.startOffset, m.endOffset, parse).Err? ==>
      r == Err(ResolveWindow(c, m.startOffset, m.endOffset, parse).error)
  {
    var data: Result<DimMetricData, Error>;
    if m.metricGroup != "" {
      data, keys := CollectMetricGroupByDimension(c, m.metricGroup, dimension, m.filters, m.startOffset, m.endOffset,
        m.granularity, m.realTime, nowStart, nowEnd, parse, fetch);
    } else if m.metric != "" {
      data, keys := CollectMetricsByDimension(c, [m.metric], dimension, m.filters, m.startOffset, m.endOffset,
        m.granularity, m.realTime, nowStart, nowEnd, parse, fetch);
    } else if |m.names| > 0 {
      data, keys := CollectMetricsByDimension(c, m.names, dimension, m.filters, m.startOffset, m.endOffset,
        m.granularity, m.realTime, nowStart, nowEnd, parse, fetch);
    } else {
      return Ok(None), [];
    }
    r := if data.Err? then Err(data.error) else Ok(Some(data.value));
  }

  // ---------------------------------------------------------------- requests

  /** One query of a pass: flat, or grouped by one dimension. */
  datatype Request = FlatRequest(metric: ConfigMetric) | DimensionRequest(metric: ConfigMetric, dimension: string)

  /** The fan-out of one entry: one flat query without dimensions, otherwise one per dimension in order. */
  function RequestsFor(m: ConfigMetric): (rs: seq<Request>)
    ensures |m.dimensions| == 0 ==> rs == [FlatRequest(m)]
    ensures |m.dimensions| > 0 ==> |rs| == |m.dimensions|
    ensures |m.dimensions| > 0 ==> forall i :: 0 <= i < |rs| ==> rs[i] == DimensionRequest(m, m.dimensions[i])
  {
    if |m.dimensions| == 0 then [FlatRequest(m)]
    else seq(|m.dimensions|, i requires 0 <= i < |m.dimensions| => DimensionRequest(m, m.dimensions[i]))
  }

  /** The queries of a pass over `metrics`, entry by entry. */
  function Requests(metrics: seq<ConfigMetric>): seq<Request>
  {
    if metrics == [] then [] else Requests(metrics[..|metrics| - 1]) + RequestsFor(metrics[|metrics| - 1])
  }

  lemma {:induction false} RequestsAppend(a: seq<ConfigMetric>, b: seq<ConfigMetric>)
    ensures Requests(a + b) == Requests(a) + Requests(b)
  {
    if b == [] {
      assert a + b == a;
    } else {
      assert (a + b)[..|a + b| - 1] == a + b[..|b| - 1];
      RequestsAppend(a, b[..|b| - 1]);
      AppendAssociates(Requests(a), Requests(b[..|b| - 1]), RequestsFor(b[|b| - 1]));
    }
  }

  /** Every query belongs to one entry, and an entry's queries come in its dimensions' order. */
  lemma {:induction false} RequestsOfEntries(metrics: seq<ConfigMetric>, r: Request)
    ensures r in Requests(metrics) <==> exists i :: 0 <= i < |metrics| && r in RequestsFor(metrics[i])
  {
    if metrics != [] {
      var n := |metrics|;
      RequestsOfEntries(metrics[..n - 1], r);
      if r in Requests(metrics) && r !in RequestsFor(metrics[n - 1]) {
        var i :| 0 <= i < n - 1 && r in RequestsFor(metrics[..n - 1][i]);
        assert metrics[..n - 1][i] == metrics[i];
      }
      if exists i :: 0 <= i < n && r in RequestsFor(metrics[i]) {
        var i :| 0 <= i < n && r in RequestsFor(metrics[i]);
        if i < n - 1 {
          assert metrics[..n - 1][i] == metrics[i];
        }
      }
    }
  }

  // ---------------------------------------------------------------- answers

  /** A decoded answer. */
  datatype Payload = FlatPayload(flat: MetricData) | DimPayload(dim: DimMetricData)

  /** The outcome of one query: an error, no query at all, or an answer. */
  type Response = Result<Option<Payload>, Error>

  /** The points each flat snapshot of a series attempts, one sequence per snapshot. */
  function SeriesPieces(adders: seq<Adder>, series: seq<Metrics>): (pieces: seq<seq<Point>>)
    ensures |pieces| == |series|
    ensures forall i :: 0 <= i < |series| ==> pieces[i] == SnapshotPoints(adders, series[i])
  {
    seq(|series|, i requires 0 <= i < |series| => SnapshotPoints(adders, series[i]))
  }

  /** The points each pair of a dimensional series element attempts, all stamped with the element's time. */
  function ElementPieces(adders: seq<Adder>, element: Dimensions): (pieces: seq<seq<Point>>)
    ensures |pieces| == |element.dimensionalData|
    ensures forall j :: 0 <= j < |pieces| ==>
      pieces[j] == DimensionalPoints(adders, element.timeStamp.epochMs, element.dimensionalData[j])
  {
    seq(|element.dimensionalData|, j requires 0 <= j < |element.dimensionalData| =>
      DimensionalPoints(adders, element.timeStamp.epochMs, element.dimensionalData[j]))
  }

  /** The points one dimensional series element attempts: its pairs in order. */
  function ElementPoints(adders: seq<Adder>, element: Dimensions): seq<Point>
  {
    Flatten(ElementPieces(adders, element))
  }

  /**
   * Every point a dimensional series element attempts is named
   * `conviva.<name>`, carries the element's own timestamp, and comes from one
   * of its pairs, tagged with that pair's dimension key and value.
   */
  lemma ElementPointsStamped(adders: seq<Adder>, element: Dimensions)
    ensures forall p <- ElementPoints(adders, element) ::
      StartsWith(p.name, MetricPrefix) && p.timestampMs == element.timeStamp.epochMs
      && (exists j :: 0 <= j < |element.dimensionalData|
            && p in DimensionalPoints(adders, element.timeStamp.epochMs, element.dimensionalData[j])
            && p.dimension == Some((element.dimensionalData[j].dimension.key, element.dimensionalData[j].dimension.value)))
  {
    var ts := element.timeStamp.epochMs;
    var pieces := ElementPieces(adders, element);
    FlattenMembers(pieces);
    forall p: Point <- Flatten(pieces)
      ensures StartsWith(p.name, MetricPrefix) && p.timestampMs == ts
      && (exists j :: 0 <= j < |element.dimensionalData|
            && p in DimensionalPoints(adders, ts, element.dimensionalData[j])
            && p.dimension == Some((element.dimensionalData[j].dimension.key, element.dimensionalData[j].dimension.value)))
    {
      var s :| s in pieces && p in s;
      var j :| 0 <= j < |pieces| && pieces[j] == s;
      var dd := element.dimensionalData[j];
      CatalogPointsStamped(adders, dd.metrics, ts, Some(dd.dimension));
    }
  }

  function DimSeriesPieces(adders: seq<Adder>, series: seq<Dimensions>): (pieces: seq<seq<Point>>)
    ensures |pieces| == |series|
    ensures forall i :: 0 <= i < |series| ==> pieces[i] == ElementPoints(adders, series[i])
  {
    seq(|series|, i requires 0 <= i < |series| => ElementPoints(adders, series[i]))
  }

  /** The points a flat series attempts: its snapshots in order. */
  function SeriesPoints(adders: seq<Adder>, series: seq<Metrics>): seq<Point>
  {
    Flatten(SeriesPieces(adders, series))
  }

  /** The points a dimensional series attempts: its elements in order. */
  function DimSeriesPoints(adders: seq<Adder>, series: seq<Dimensions>): seq<Point>
  {
    Flatten(DimSeriesPieces(adders, series))
  }

  /** The points an answer attempts, in the order `getMetricsData` walks it; `Total` is never read. */
  function PayloadPoints(adders: seq<Adder>, p: Payload): seq<Point>
  {
    match p
    case FlatPayload(data) => SeriesPoints(adders, data.timeSeries)
    case DimPayload(data) => DimSeriesPoints(adders, data.timeSeries)
  }

  function ResponsePoints(adders: seq<Adder>, r: Response): seq<Point>
  {
    if r.Ok? && r.value.Some? then PayloadPoints(adders, r.value.value) else []
  }

  /** The first failed query's error, if any query failed. */
  function FirstFetchError(rs: seq<Response>): (e: Option<Error>)
    ensures e.None? <==> forall i :: 0 <= i < |rs| ==> rs[i].Ok?
  {
    if rs == [] then None
    else if FirstFetchError(rs[..|rs| - 1]).Some? then FirstFetchError(rs[..|rs| - 1])
    else if rs[|rs| - 1].Err? then Some(rs[|rs| - 1].error)
    else None
  }

  /** The points of the answers before the first failed query, in order. */
  function FetchedPoints(adders: seq<Adder>, rs: seq<Response>): seq<Point>
  {
    if rs == [] then []
    else if FirstFetchError(rs[..|rs| - 1]).Some? then FetchedPoints(adders, rs[..|rs| - 1])
    else FetchedPoints(adders, rs[..|rs| - 1]) + ResponsePoints(adders, rs[|rs| - 1])
  }

  /**
   * What a pass that met the responses `rs` leaves behind: the points the
   * SDK took, and the error that stopped it. A refusal among the fetched
   * points stops the pass before any later failed query is reached.
   */
  function Outcome(sdk: Sdk, adders: seq<Adder>, rs: seq<Response>): (seq<Point>, Option<Error>)
  {
    var ps := FetchedPoints(adders, rs);
    (Accepted(sdk, ps), if AllAccepted(sdk, ps) then FirstFetchError(rs) else SinkError(sdk, ps))
  }

  lemma {:induction false} FetchedAppend(adders: seq<Adder>, a: seq<Response>, b: seq<Response>)
    requires FirstFetchError(a).None?
    ensures FirstFetchError(a + b) == FirstFetchError(b)
    ensures FetchedPoints(adders, a + b) == FetchedPoints(adders, a) + FetchedPoints(adders, b)
  {
    if b == [] {
      assert a + b == a;
    } else {
      var b' := b[..|b| - 1];
      assert (a + b)[..|a + b| - 1] == a + b';
      FetchedAppend(adders, a, b');
      if FirstFetchError(b').None? {
        AppendAssociates(FetchedPoints(adders, a), FetchedPoints(adders, b'), ResponsePoints(adders, b[|b| - 1]));
      }
    }
  }

  /** After a run of queries that stopped nothing, the next block of queries decides the rest. */
  lemma OutcomeAppend(sdk: Sdk, adders: seq<Adder>, a: seq<Response>, b: seq<Response>)
    requires Outcome(sdk, adders, a).1.None?
    ensures Outcome(sdk, adders, a).0 == FetchedPoints(adders, a)
    ensures Outcome(sdk, adders, a + b).0 == FetchedPoints(adders, a) + Outcome(sdk, adders, b).0
    ensures Outcome(sdk, adders, a + b).1 == Outcome(sdk, adders, b).1
  {
    AcceptedAll(sdk, FetchedPoints(adders, a));
    FetchedAppend(adders, a, b);
    AcceptedAppend(sdk, FetchedPoints(adders, a), FetchedPoints(adders, b));
  }

  /** A single query's outcome: its error, or the SDK's verdict on its points. */
  lemma OutcomeSingle(sdk: Sdk, adders: seq<Adder>, r: Response)
    ensures Outcome(sdk, adders, [r]).0 == Accepted(sdk, ResponsePoints(adders, r))
    ensures Outcome(sdk, adders, [r]).1 == if r.Err? then Some(r.error) else SinkError(sdk, ResponsePoints(adders, r))
  {
    assert [r][..0] == [];
    assert FetchedPoints(adders, [r]) == ResponsePoints(adders, r);
    assert FirstFetchError([r]) == if r.Err? then Some(r.error) else None;
    if r.Err? {
      assert Accepted(sdk, []) == [];
    }
  }

  // ---------------------------------------------------------------- the pass

  /**
   * What lies outside the model: the two clock readings each URL takes, the
   * duration parser, and the transport with its JSON decoder for flat and
   * for dimensional answers.
   */
  datatype World = World(
    nowStart: int,
    nowEnd: int,
    parse: DurationParser,
    fetch: string -> Result<MetricData, Error>,
    fetchDim: string -> Result<DimMetricData, Error>)

  /** `keys` visits only filter keys of `r`'s entry. */
  predicate KeysFit(r: Request, keys: seq<string>)
  {
    forall j :: 0 <= j < |keys| ==> keys[j] in r.metric.filters
  }

  /** What query `r` yields when its filter map is visited in the order `keys`. */
  function Respond(c: Collector, r: Request, keys: seq<string>, w: World): Response
    requires KeysFit(r, keys)
  {
    match r
    case FlatRequest(m) =>
      (match MetricDataFor(c, m, keys, w.nowStart, w.nowEnd, w.parse, w.fetch)
       case Err(e) => Err(e)
       case Ok(d) => Ok(if d.Some? then Some(FlatPayload(d.value)) else None))
    case DimensionRequest(m, dim) =>
      match DimMetricDataFor(c, m, dim, keys, w.nowStart, w.nowEnd, w.parse, w.fetchDim)
      case Err(e) => Err(e)
      case Ok(d) => Ok(if d.Some? then Some(DimPayload(d.value)) else None)
  }

  predicate AllKeysFit(reqs: seq<Request>, orders: seq<seq<string>>)
  {
    |orders| == |reqs| && forall i :: 0 <= i < |reqs| ==> KeysFit(reqs[i], orders[i])
  }

  function Responses(c: Collector, reqs: seq<Request>, orders: seq<seq<string>>, w: World): (rs: seq<Response>)
    requires AllKeysFit(reqs, orders)
    ensures |rs| == |reqs|
  {
    seq(|reqs|, i requires 0 <= i < |reqs| => Respond(c, reqs[i], orders[i], w))
  }

  lemma ResponsesAppend(c: Collector, reqs1: seq<Request>, orders1: seq<seq<string>>,
                        reqs2: seq<Request>, orders2: seq<seq<string>>, w: World)
    requires AllKeysFit(reqs1, orders1) && AllKeysFit(reqs2, orders2)
    ensures AllKeysFit(reqs1 + reqs2, orders1 + orders2)
    ensures Responses(c, reqs1 + reqs2, orders1 + orders2, w) == Responses(c, reqs1, orders1, w) + Responses(c, reqs2, orders2, w)
  {
    var reqs, orders := reqs1 + reqs2, orders1 + orders2;
    forall i | 0 <= i < |reqs| ensures KeysFit(reqs[i], orders[i]) {
      if i >= |reqs1| {
        assert reqs[i] == reqs2[i - |reqs1|] && orders[i] == orders2[i - |reqs1|];
      }
    }
    var rs, rs1, rs2 := Responses(c, reqs, orders, w), Responses(c, reqs1, orders1, w), Responses(c, reqs2, orders2, w);
    forall i | 0 <= i < |rs| ensures rs[i] == (rs1 + rs2)[i] {
      if i >= |reqs1| {
        assert reqs[i] == reqs2[i - |reqs1|] && orders[i] == orders2[i - |reqs1|];
      }
    }
  }

  /** Appending a block of responses to a run that has not stopped. */
  lemma BlockStep(sdk: Sdk, adders: seq<Adder>, rs: seq<Response>, block: seq<Response>, start: seq<Point>, before: seq<Point>, after: seq<Point>)
    requires Outcome(sdk, adders, rs).1.None? && before == start + Outcome(sdk, adders, rs).0
    requires after == before + Outcome(sdk, adders, block).0
    ensures after == start + Outcome(sdk, adders, rs + block).0
    ensures Outcome(sdk, adders, rs + block).1 == Outcome(sdk, adders, block).1
  {
    OutcomeAppend(sdk, adders, rs, block);
    AppendAssociates(start, FetchedPoints(adders, rs), Outcome(sdk, adders, block).0);
  }

  /** The loop over a flat answer's series: `addMetrics` on every snapshot, in order. */
  method AddSeries(entity: Entity, adders: seq<Adder>, series: seq<Metrics>, sdk: Sdk) returns (err: Option<Error>)
    modifies entity
    ensures var ps := SeriesPoints(adders, series);
      entity.metrics == old(entity.metrics) + Accepted(sdk, ps) && err == SinkError(sdk, ps)
  {
    ghost var pieces := SeriesPieces(adders, series);
    ghost var start := entity.metrics;
    err := None;
    var i := 0;
    assert pieces[..0] == [];
    while i < |series| && err.None?
      invariant 0 <= i <= |series| == |pieces|
      invariant err.None? ==> entity.metrics == start + Flatten(pieces[..i]) && AllAccepted(sdk, Flatten(pieces[..i]))
      invariant err.Some? ==> entity.metrics == start + Accepted(sdk, Flatten(pieces)) && err == SinkError(sdk, Flatten(pieces))
    {
      ghost var before := entity.metrics;
      err := AddMetrics(entity, adders, series[i], sdk);
      if err.Some? {
        StepStops(sdk, pieces, i, start, before, entity.metrics);
      } else {
        StepContinues(sdk, pieces, i, start, before, entity.metrics);
      }
      i := i + 1;
    }
    assert err.None? ==> pieces[..i] == pieces;
  }

  /** The inner loop over one dimensional series element: `addDimensionalMetrics` on every pair, with the element's time. */
  method AddElement(entity: Entity, adders: seq<Adder>, element: Dimensions, sdk: Sdk) returns (err: Option<Error>)
    modifies entity
    ensures var ps := ElementPoints(adders, element);
      entity.metrics == old(entity.metrics) + Accepted(sdk, ps) && err == SinkError(sdk, ps)
  {
    ghost var pieces := ElementPieces(adders, element);
    ghost var start := entity.metrics;
    var ts := element.timeStamp.epochMs;
    err := None;
    var j := 0;
    assert pieces[..0] == [];
    while j < |element.dimensionalData| && err.None?
      invariant 0 <= j <= |element.dimensionalData| == |pieces|
      invariant err.None? ==> entity.metrics == start + Flatten(pieces[..j]) && AllAccepted(sdk, Flatten(pieces[..j]))
      invariant err.Some? ==> entity.metrics == start + Accepted(sdk, Flatten(pieces)) && err == SinkError(sdk, Flatten(pieces))
    {
      ghost var before := entity.metrics;
      err := AddDimensionalMetrics(entity, adders, ts, element.dimensionalData[j], sdk);
      if err.Some? {
        StepStops(sdk, pieces, j, start, before, entity.metrics);
      } else {
        StepContinues(sdk, pieces, j, start, before, entity.metrics);
      }
      j := j + 1;
    }
    assert err.None? ==> pieces[..j] == pieces;
  }

  /** The outer loop over a dimensional answer's series. */
  method AddDimSeries(entity: Entity, adders: seq<Adder>, series: seq<Dimensions>, sdk: Sdk) returns (err: Option<Error>)
    modifies entity
    ensures var ps := DimSeriesPoints(adders, series);
      entity.metrics == old(entity.metrics) + Accepted(sdk, ps) && err == SinkError(sdk, ps)
  {
    ghost var pieces := DimSeriesPieces(adders, series);
    ghost var start := entity.metrics;
    err := None;
    var i := 0;
    assert pieces[..0] == [];
    while i < |series| && err.None?
      invariant 0 <= i <= |series| == |pieces|
      invariant err.None? ==> entity.metrics == start + Flatten(pieces[..i]) && AllAccepted(sdk, Flatten(pieces[..i]))
      invariant err.Some? ==> entity.metrics == start + Accepted(sdk, Flatten(pieces)) && err == SinkError(sdk, Flatten(pieces))
    {
      ghost var before := entity.metrics;
      err := AddElement(entity, adders, series[i], sdk);
      if err.Some? {
        StepStops(sdk, pieces, i, start, before, entity.metrics);
      } else {
        StepContinues(sdk, pieces, i, start, before, entity.metrics);
      }
      i := i + 1;
    }
    assert err.None? ==> pieces[..i] == pieces;
  }

  /** What a single response leaves behind, by the shape of the answer. */
  lemma ResponseOutcome(sdk: Sdk, adders: seq<Adder>, resp: Response)
    ensures resp.Err? ==> Outcome(sdk, adders, [resp]) == ([], Some(resp.error))
    ensures resp == Ok(None) ==> Outcome(sdk, adders, [resp]) == ([], None)
    ensures resp.Ok? && resp.value.Some? ==>
      Outcome(sdk, adders, [resp]) == (Accepted(sdk, PayloadPoints(adders, resp.value.value)), SinkError(sdk, PayloadPoints(adders, resp.value.value)))
  {
    OutcomeSingle(sdk, adders, resp);
    if resp.Err? || resp.value.None? {
      assert Accepted(sdk, []) == [];
    }
  }

  /** A query without dimensions: `getMetricData`, then `addMetrics` over the series. */
  method ServeFlat(entity: Entity, adders: seq<Adder>, c: Collector, m: ConfigMetric, w: World, sdk: Sdk) returns (err: Option<Error>, ghost keys: seq<string>)
    modifies entity
    ensures KeysFit(FlatRequest(m), keys)
    ensures var o := Outcome(sdk, adders, [Respond(c, FlatRequest(m), keys, w)]);
      entity.metrics == old(entity.metrics) + o.0 && err == o.1
  {
    var data;
    data, keys := GetMetricData(c, m, w.nowStart, w.nowEnd, w.parse, w.fetch);
    ResponseOutcome(sdk, adders, Respond(c, FlatRequest(m), keys, w));
    if data.Err? {
      err := Some(data.error);
    } else if data.value.Some? {
      err := AddSeries(entity, adders, data.value.value.timeSeries, sdk);
    } else {
      err := None;
    }
  }

  /** A query by one dimension: `getMetricDataByDimension`, then `addDimensionalMetrics` over every pair. */
  method ServeDimension(entity: Entity, adders: seq<Adder>, c: Collector, m: ConfigMetric, dim: string, w: World, sdk: Sdk)
    returns (err: Option<Error>, ghost keys: seq<string>)
    modifies entity
    ensures KeysFit(DimensionRequest(m, dim), keys)
    ensures var o := Outcome(sdk, adders, [Respond(c, DimensionRequest(m, dim), keys, w)]);
      entity.metrics == old(entity.metrics) + o.0 && err == o.1
  {
    var data;
    data, keys := GetMetricDataByDimension(c, m, dim, w.nowStart, w.nowEnd, w.parse, w.fetchDim);
    ResponseOutcome(sdk, adders, Respond(c, DimensionRequest(m, dim), keys, w));
    if data.Err? {
      err := Some(data.error);
    } else if data.value.Some? {
      err := AddDimSeries(entity, adders, data.value.value.timeSeries, sdk);
    } else {
      err := None;
    }
  }

  /** The walk so far has met the responses to the first `|orders|` queries of `reqs` and has not stopped. */
  predicate Running(entity: Entity, start: seq<Point>, adders: seq<Adder>, c: Collector, reqs: seq<Request>,
                    orders: seq<seq<string>>, w: World, sdk: Sdk)
    reads entity
  {
    && |orders| <= |reqs| && AllKeysFit(reqs[..|orders|], orders)
    && var o := Outcome(sdk, adders, Responses(c, reqs[..|orders|], orders, w));
    o.1.None? && entity.metrics == start + o.0
  }

  /** The walk has met the responses to the first `|orders|` queries of `reqs` and ends with `err`. */
  predicate Finished(entity: Entity, start: seq<Point>, adders: seq<Adder>, c: Collector, reqs: seq<Request>,
                     orders: seq<seq<string>>, w: World, sdk: Sdk, err: Option<Error>)
    reads entity
  {
    && |orders| <= |reqs| && AllKeysFit(reqs[..|orders|], orders)
    && var o := Outcome(sdk, adders, Responses(c, reqs[..|orders|], orders, w));
    err == o.1 && entity.metrics == start + o.0
  }

  /** One dimension of an entry's fan-out: the query for `m.dimensions[i]` and the walk over its answer. */
  method ServeNextDimension(entity: Entity, adders: seq<Adder>, c: Collector, m: ConfigMetric, w: World, sdk: Sdk,
                            i: nat, ghost start: seq<Point>, ghost orders: seq<seq<string>>)
    returns (err: Option<Error>, ghost orders': seq<seq<string>>)
    modifies entity
    requires i < |m.dimensions| && |orders| == i
    requires Running(entity, start, adders, c, RequestsFor(m), orders, w, sdk)
    ensures |orders'| == i + 1
    ensures Finished(entity, start, adders, c, RequestsFor(m), orders', w, sdk, err)
  {
    ghost var reqs := RequestsFor(m);
    ghost var before := entity.metrics;
    ghost var rs := Responses(c, reqs[..i], orders, w);
    ghost var keys;
    err, keys := ServeDimension(entity, adders, c, m, m.dimensions[i], w, sdk);
    orders' := orders + [keys];
    ghost var resp := Respond(c, DimensionRequest(m, m.dimensions[i]), keys, w);
    NextResponse(adders, c, m, i, orders, keys, w);
    BlockStep(sdk, adders, rs, [resp], start, before, entity.metrics);
  }

  lemma NextResponse(adders: seq<Adder>, c: Collector, m: ConfigMetric, i: nat, orders: seq<seq<string>>, keys: seq<string>, w: World)
    requires i < |m.dimensions| && |orders| == i
    requires AllKeysFit(RequestsFor(m)[..i], orders)
    requires KeysFit(DimensionRequest(m, m.dimensions[i]), keys)
    ensures AllKeysFit(RequestsFor(m)[..i + 1], orders + [keys])
    ensures Responses(c, RequestsFor(m)[..i + 1], orders + [keys], w)
      == Responses(c, RequestsFor(m)[..i], orders, w) + [Respond(c, DimensionRequest(m, m.dimensions[i]), keys, w)]
  {
    var reqs := RequestsFor(m);
    assert reqs[i] == DimensionRequest(m, m.dimensions[i]);
    assert reqs[..i + 1] == reqs[..i] + [reqs[i]];
    ResponsesAppend(c, reqs[..i], orders, [reqs[i]], [keys], w);
  }

  /** An entry without dimensions: a single flat query. */
  method ServeFlatEntry(entity: Entity, adders: seq<Adder>, c: Collector, m: ConfigMetric, w: World, sdk: Sdk)
    returns (err: Option<Error>, ghost orders: seq<seq<string>>)
    modifies entity
    requires |m.dimensions| == 0
    ensures |orders| == 1
    ensures Finished(entity, old(entity.metrics), adders, c, RequestsFor(m), orders, w, sdk, err)
  {
    ghost var keys;
    err, keys := ServeFlat(entity, adders, c, m, w, sdk);
    orders := [keys];
    assert RequestsFor(m)[..1] == [FlatRequest(m)];
    assert Responses(c, RequestsFor(m)[..1], orders, w) == [Respond(c, FlatRequest(m), keys, w)];
  }

  /** The queries of one configured entry, in order, each walked before the next is made. */
  method ServeMetric(entity: Entity, adders: seq<Adder>, c: Collector, m: ConfigMetric, w: World, sdk: Sdk)
    returns (err: Option<Error>, ghost orders: seq<seq<string>>)
    modifies entity
    ensures Finished(entity, old(entity.metrics), adders, c, RequestsFor(m), orders, w, sdk, err)
    ensures |orders| < |RequestsFor(m)| ==> err.Some?
  {
    if |m.dimensions| == 0 {
      err, orders := ServeFlatEntry(entity, adders, c, m, w, sdk);
      return;
    }
    ghost var reqs := RequestsFor(m);
    ghost var start := entity.metrics;
    orders := [];
    assert reqs[..0] == [];
    assert FetchedPoints(adders, []) == [] && Accepted(sdk, []) == [];
    err := None;
    var i := 0;
    while i < |m.dimensions| && err.None?
      invariant 0 <= i <= |m.dimensions|
      invariant err.None? ==> |orders| == i && Running(entity, start, adders, c, reqs, orders, w, sdk)
      invariant err.Some? ==> |orders| <= i && Finished(entity, start, adders, c, reqs, orders, w, sdk, err)
    {
      err, orders := ServeNextDimension(entity, adders, c, m, w, sdk, i, start, orders);
      i := i + 1;
    }
  }

  /** Slicing a three-part concatenation inside its middle part. */
  lemma SliceMiddle<T>(pre: seq<T>, mine: seq<T>, rest: seq<T>, k: nat)
    requires k <= |mine|
    ensures (pre + mine + rest)[..|pre| + k] == pre + mine[..k]
  {
    assert (pre + mine + rest)[..|pre| + k] == (pre + mine)[..|pre| + k];
  }

  /** One more entry adds its own queries at the end. */
  lemma RequestsSnoc(ms: seq<ConfigMetric>, i: nat)
    requires i < |ms|
    ensures Requests(ms[..i + 1]) == Requests(ms[..i]) + RequestsFor(ms[i])
  {
    var front := ms[..i + 1];
    assert front[..|front| - 1] == ms[..i];
    assert front[|front| - 1] == ms[i];
  }

  /** The entries up to `i`, split at `i`. */
  lemma EntrySplit(ms: seq<ConfigMetric>, i: nat)
    requires i < |ms|
    ensures Requests(ms) == Requests(ms[..i]) + RequestsFor(ms[i]) + Requests(ms[i + 1..])
    ensures Requests(ms[..i + 1]) == Requests(ms[..i]) + RequestsFor(ms[i])
  {
    assert ms[..i + 1] + ms[i + 1..] == ms;
    RequestsAppend(ms[..i + 1], ms[i + 1..]);
    RequestsSnoc(ms, i);
  }

  /** The queries of entry `i` follow those of the entries before it. */
  lemma EntryQueries(ms: seq<ConfigMetric>, i: nat, k: nat)
    requires i < |ms| && k <= |RequestsFor(ms[i])|
    ensures |Requests(ms[..i + 1])| == |Requests(ms[..i])| + |RequestsFor(ms[i])|
    ensures |Requests(ms[..i])| + k <= |Requests(ms)|
    ensures Requests(ms)[..|Requests(ms[..i])| + k] == Requests(ms[..i]) + RequestsFor(ms[i])[..k]
    ensures Requests(ms)[..|Requests(ms[..i])|] == Requests(ms[..i])
  {
    EntrySplit(ms, i);
    var pre, mine, rest := Requests(ms[..i]), RequestsFor(ms[i]), Requests(ms[i + 1..]);
    SliceMiddle(pre, mine, rest, k);
    SliceMiddle(pre, mine, rest, 0);
    assert mine[..0] == [] && pre + [] == pre;
  }

  /** The outcome of a pass so far, extended by the queries entry `i` made. */
  lemma NextMetricStep(sdk: Sdk, adders: seq<Adder>, c: Collector, ms: seq<ConfigMetric>, w: World, i: nat,
                       start: seq<Point>, before: seq<Point>, after: seq<Point>,
                       orders: seq<seq<string>>, own: seq<seq<string>>, err: Option<Error>)
    requires i < |ms| && |orders| == |Requests(ms[..i])|
    requires |orders| <= |Requests(ms)| && AllKeysFit(Requests(ms)[..|orders|], orders)
    requires Outcome(sdk, adders, Responses(c, Requests(ms)[..|orders|], orders, w)).1.None?
    requires before == start + Outcome(sdk, adders, Responses(c, Requests(ms)[..|orders|], orders, w)).0
    requires |own| <= |RequestsFor(ms[i])| && AllKeysFit(RequestsFor(ms[i])[..|own|], own)
    requires err == Outcome(sdk, adders, Responses(c, RequestsFor(ms[i])[..|own|], own, w)).1
    requires after == before + Outcome(sdk, adders, Responses(c, RequestsFor(ms[i])[..|own|], own, w)).0
    ensures |own| == |RequestsFor(ms[i])| ==> |orders + own| == |Requests(ms[..i + 1])|
    ensures |orders + own| <= |Requests(ms)| && AllKeysFit(Requests(ms)[..|orders + own|], orders + own)
    ensures var o := Outcome(sdk, adders, Responses(c, Requests(ms)[..|orders + own|], orders + own, w));
      err == o.1 && after == start + o.0
  {
    var all := Requests(ms);
    EntryQueries(ms, i, |own|);
    var mine := RequestsFor(ms[i])[..|own|];
    assert all[..|orders|] == Requests(ms[..i]);
    assert all[..|orders + own|] == all[..|orders|] + mine;
    ResponsesAppend(c, all[..|orders|], orders, mine, own, w);
    BlockStep(sdk, adders, Responses(c, all[..|orders|], orders, w), Responses(c, mine, own, w), start, before, after);
  }

  /** Entry `i` of the configuration: all its queries, after those of the entries before it. */
  method ServeNextMetric(entity: Entity, adders: seq<Adder>, c: Collector, ms: seq<ConfigMetric>, w: World, sdk: Sdk,
                         i: nat, ghost start: seq<Point>, ghost orders: seq<seq<string>>)
    returns (err: Option<Error>, ghost orders': seq<seq<string>>)
    modifies entity
    requires i < |ms| && |orders| == |Requests(ms[..i])|
    requires Running(entity, start, adders, c, Requests(ms), orders, w, sdk)
    ensures err.None? ==> |orders'| == |Requests(ms[..i + 1])| && Running(entity, start, adders, c, Requests(ms), orders', w, sdk)
    ensures err.Some? ==> Finished(entity, start, adders, c, Requests(ms), orders', w, sdk, err)
  {
    ghost var before := entity.metrics;
    ghost var own;
    err, own := ServeMetric(entity, adders, c, ms[i], w, sdk);
    NextMetricStep(sdk, adders, c, ms, w, i, start, before, entity.metrics, orders, own, err);
    orders' := orders + own;
  }

  /**
   * `getMetricsData`: builds the collector, then serves every configured
   * entry in order, stopping at the first error. `adders` is the catalog
   * `initMetrics` filled; `orders` records the filter-key order each query
   * took.
   */
  method GetMetricsData(entity: Entity, adders: seq<Adder>, cfg: Config, clientId: string, clientSecret: string,
                        w: World, sdk: Sdk)
    returns (err: Option<Error>, ghost orders: seq<seq<string>>)
    modifies entity
    ensures var col := NewConvivaCollector(cfg.apiV3Url, clientId, clientSecret, cfg.startOffset, cfg.endOffset,
                                           cfg.granularity, cfg.realTime, w.parse);
      && (col.Err? ==> err == Some(col.error) && entity.metrics == old(entity.metrics) && orders == [])
      && (col.Ok? ==> Finished(entity, old(entity.metrics), adders, col.value, Requests(cfg.metrics), orders, w, sdk, err))
      && (col.Ok? && |orders| < |Requests(cfg.metrics)| ==> err.Some?)
  {
    var col := NewConvivaCollector(cfg.apiV3Url, clientId, clientSecret, cfg.startOffset, cfg.endOffset,
                                   cfg.granularity, cfg.realTime, w.parse);
    orders := [];
    if col.Err? {
      return Some(col.error), orders;
    }
    var c := col.value;
    ghost var start := entity.metrics;
    ghost var all := Requests(cfg.metrics);
    assert all[..0] == [] && cfg.metrics[..0] == [];
    assert FetchedPoints(adders, []) == [] && Accepted(sdk, []) == [];
    err := None;
    var i := 0;
    while i < |cfg.metrics| && err.None?
      invariant 0 <= i <= |cfg.metrics|
      invariant err.None? ==> |orders| == |Requests(cfg.metrics[..i])| && Running(entity, start, adders, c, all, orders, w, sdk)
      invariant err.Some? ==> Finished(entity, start, adders, c, all, orders, w, sdk, err)
    {
      err, orders := ServeNextMetric(entity, adders, c, cfg.metrics, w, sdk, i, start, orders);
      i := i + 1;
    }
    if err.None? {
      assert cfg.metrics[..i] == cfg.metrics;
    }
  }
}
