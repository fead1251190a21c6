/**
 * The Conviva query builder: how a metric selection, filters, offsets, a
 * granularity and real-time overrides become the request URL.
 *
 * Durations are nanoseconds, as Go's `time.Duration`. The wall clock and
 * `time.ParseDuration` are outside the model: the clock is passed in as its
 * two readings (the time range reads it once per bound) and the parser as a
 * function from text to an optional duration.
 */
module Query {
  import opened Wrappers
  import opened Types
  import opened Errors
  import opened Text

  /** `FIFTEEN_MINUTES`, in nanoseconds. */
  const FifteenMinutes: Int64 := 15 * 60 * 1_000_000_000

  /** Stands in for `time.ParseDuration`: `None` where Go returns an error. */
  type DurationParser = string -> Option<Int64>

  /** Filter key to its values, as the configuration gives them. */
  type Filters = map<string, seq<string>>

  /** The configured collector; the logger is not modelled. */
  datatype Collector = Collector(
    url: string,
    clientId: string,
    clientSecret: string,
    startOffset: Int64,
    endOffset: Int64,
    granularity: string,
    realTime: Option<bool>)

  // ---------------------------------------------------------------- offsets

  /** An override if one is given, which must parse; otherwise the default. */
  function GetDuration(offset: string, default: Int64, parse: DurationParser): (r: Result<Int64, Error>)
    ensures offset == "" ==> r == Ok(default)
    ensures offset != "" ==> (r.Ok? <==> parse(offset).Some?)
    ensures offset != "" && r.Ok? ==> r.value == parse(offset).value
    ensures r.Err? ==> r.error == InvalidDuration(offset)
  {
    if offset == "" then Ok(default)
    else match parse(offset)
      case None => Err(InvalidDuration(offset))
      case Some(d) => Ok(d)
  }

  /** Builds a collector; an offset given as "" means zero, any other must parse. */
  function NewConvivaCollector(
    url: string, clientId: string, clientSecret: string,
    startOffset: string, endOffset: string,
    granularity: string, realTime: Option<bool>,
    parse: DurationParser): (r: Result<Collector, Error>)
    ensures r.Ok? <==> (startOffset == "" || parse(startOffset).Some?) && (endOffset == "" || parse(endOffset).Some?)
    ensures r.Ok? ==>
      && r.value.startOffset == (if startOffset == "" then 0 else parse(startOffset).value)
      && r.value.endOffset == (if endOffset == "" then 0 else parse(endOffset).value)
      && r.value.url == url && r.value.clientId == clientId && r.value.clientSecret == clientSecret
      && r.value.granularity == granularity && r.value.realTime == realTime
    ensures r.Err? ==> r.error == InvalidDuration(if startOffset != "" && parse(startOffset).None? then startOffset else endOffset)
  {
    var start := if startOffset == "" then Some(0) else parse(startOffset);
    var end := if endOffset == "" then Some(0) else parse(endOffset);
    if start.None? then Err(InvalidDuration(startOffset))
    else if end.None? then Err(InvalidDuration(endOffset))
    else Ok(Collector(url, clientId, clientSecret, start.value, end.value, granularity, realTime))
  }

  /** The collector's offsets are the two offsets resolved against a zero default. */
  lemma CollectorOffsetsResolve(
    url: string, clientId: string, clientSecret: string,
    startOffset: string, endOffset: string,
    granularity: string, realTime: Option<bool>, parse: DurationParser)
    ensures var r := NewConvivaCollector(url, clientId, clientSecret, startOffset, endOffset, granularity, realTime, parse);
      var s := GetDuration(startOffset, 0, parse);
      var e := GetDuration(endOffset, 0, parse);
      && (r.Ok? <==> s.Ok? && e.Ok?)
      && (r.Ok? ==> r.value.startOffset == s.value && r.value.endOffset == e.value)
      && (r.Err? ==> r.error == if s.Err? then s.error else e.error)
  { }

  // ---------------------------------------------------------------- path

  /** The path under the endpoint: the selection, then `/group-by/<dimension>` if any. */
  function MakePath(metricNames: seq<string>, metricGroup: string, dimension: string): (s: string)
    ensures var tail := if dimension != "" then "/group-by/" + dimension else "";
      && (metricGroup != "" ==> s == metricGroup + tail)
      && (metricGroup == "" && |metricNames| > 1 ==> s == "custom-selection" + tail)
      && (metricGroup == "" && |metricNames| == 1 ==> s == metricNames[0] + tail)
      && (metricGroup == "" && |metricNames| == 0 ==> s == tail)
  {
    var root :=
      if metricGroup != "" then metricGroup
      else if |metricNames| > 1 then "custom-selection"
      else if |metricNames| == 1 then metricNames[0]
      else "";
    if dimension != "" then root + "/group-by/" + dimension else root
  }

  // ---------------------------------------------------------------- endpoint

  /** Real time unless an override is explicitly false or the window reaches back more than 15 minutes. */
  function UseRealTime(start: Int64, r1: Option<bool>, r2: Option<bool>): (b: bool)
    ensures b <==> r1 != Some(false) && r2 != Some(false) && start <= FifteenMinutes
  {
    if r1.Some? && !r1.value then false
    else if r2.Some? && !r2.value then false
    else if start != 0 && start > FifteenMinutes then false
    else true
  }

  function Endpoint(realTime: bool): (e: string)
    ensures e == "real-time-metrics" || e == "metrics"
    ensures e == "real-time-metrics" <==> realTime
  {
    if realTime then "real-time-metrics" else "metrics"
  }

  // ---------------------------------------------------------------- time range

  /** Go's `/` on integers: the quotient truncated toward zero. */
  function GoDiv(a: int, b: int): (q: int)
    requires b > 0
    ensures a >= 0 ==> q == a / b
    ensures a < 0 ==> q == -((-a) / b)
  {
    if a >= 0 then a / b else -((-a) / b)
  }

  /**
   * `time.Now().Add(-offset).UnixMilli() / 1000` for the clock reading `now`
   * (Unix nanoseconds): milliseconds round toward minus infinity, as
   * `UnixMilli` does, and the division by 1000 truncates, as Go's `/` does.
   */
  function EpochSeconds(now: int, offset: int): int
  {
    GoDiv((now - offset) / 1_000_000, 1000)
  }

  /** An earlier bound with a clock read no later gives an epoch no later. */
  lemma EpochSecondsOrdered(nowStart: int, nowEnd: int, start: int, end: int)
    requires nowStart <= nowEnd && end <= start
    ensures EpochSeconds(nowStart, start) <= EpochSeconds(nowEnd, end)
  {
    var a, a' := nowStart - start, nowEnd - end;
    assert a / 1_000_000 <= a' / 1_000_000;
  }

  /** Appends `start_epoch=` then `end_epoch=`, each from its own clock reading. */
  function AddTimeRange(params: seq<string>, start: Int64, end: Int64, nowStart: int, nowEnd: int): (r: seq<string>)
    ensures |r| == |params| + 2 && r[..|params|] == params
    ensures r[|params|] == "start_epoch=" + IntToString(EpochSeconds(nowStart, start))
    ensures r[|params| + 1] == "end_epoch=" + IntToString(EpochSeconds(nowEnd, end))
  {
    params + ["start_epoch=" + IntToString(EpochSeconds(nowStart, start)),
              "end_epoch=" + IntToString(EpochSeconds(nowEnd, end))]
  }

  /** The request's granularity wins over the collector's; with neither, nothing. */
  function AddGranularity(params: seq<string>, g1: string, g2: string): (r: seq<string>)
    ensures |r| >= |params| && r[..|params|] == params
    ensures |r| == |params| <==> g1 == "" && g2 == ""
    ensures |r| != |params| ==> |r| == |params| + 1 && r[|params|] == "granularity=" + (if g1 != "" then g1 else g2)
  {
    if g1 != "" then params + ["granularity=" + g1]
    else if g2 != "" then params + ["granularity=" + g2]
    else params
  }

  // ---------------------------------------------------------------- filters and metrics

  /** One unescaped `key=value` parameter per value, in the values' order. */
  function PairParams(key: string, values: seq<string>): (ps: seq<string>)
    ensures |ps| == |values|
    ensures forall j :: 0 <= j < |values| ==> ps[j] == key + "=" + values[j]
  {
    seq(|values|, j requires 0 <= j < |values| => key + "=" + values[j])
  }

  /** The filter parameters when the map is visited in the order `keys`. */
  function FilterParams(keys: seq<string>, filters: Filters): seq<string>
    requires forall i :: 0 <= i < |keys| ==> keys[i] in filters
  {
    if |keys| == 0 then []
    else FilterParams(keys[..|keys| - 1], filters) + PairParams(keys[|keys| - 1], filters[keys[|keys| - 1]])
  }

  /** `keys` lists every key of `filters` exactly once: one possible Go map iteration order. */
  ghost predicate IsKeyOrder(keys: seq<string>, filters: Filters)
  {
    && (forall i, j :: 0 <= i < j < |keys| ==> keys[i] != keys[j])
    && (forall k :: k in filters <==> k in keys)
  }

  /** `metric=<name>` for each name in order, but only when there is more than one name. */
  function MetricParams(metricNames: seq<string>): (ps: seq<string>)
    ensures |metricNames| <= 1 ==> ps == []
    ensures |metricNames| > 1 ==> |ps| == |metricNames| && forall i :: 0 <= i < |ps| ==> ps[i] == "metric=" + metricNames[i]
  {
    if |metricNames| > 1 then seq(|metricNames|, i requires 0 <= i < |metricNames| => "metric=" + metricNames[i])
    else []
  }

  // ---------------------------------------------------------------- the URL

  /** `base/endpoint/path`, then `?` and the `&`-joined parameters if there are any. */
  function Assemble(base: string, endpoint: string, path: string, params: seq<string>): (url: string)
    ensures StartsWith(url, base + "/" + endpoint + "/" + path)
    ensures params == [] ==> url == base + "/" + endpoint + "/" + path
    ensures params != [] ==> url == base + "/" + endpoint + "/" + path + "?" + Join(params, "&")
  {
    var head := base + "/" + endpoint + "/" + path;
    PrefixOfConcat(head, "?" + Join(params, "&"));
    if params == [] then head else head + "?" + Join(params, "&")
  }

  /** Every parameter group in order: time range, granularity, filters, metrics. */
  function QueryParams(
    c: Collector, metricNames: seq<string>, filters: Filters, keys: seq<string>,
    start: Int64, end: Int64, granularity: string, nowStart: int, nowEnd: int): seq<string>
    requires forall i :: 0 <= i < |keys| ==> keys[i] in filters
  {
    var timed := if start != 0 then AddTimeRange([], start, end, nowStart, nowEnd) else [];
    AddGranularity(timed, granularity, c.granularity) + FilterParams(keys, filters) + MetricParams(metricNames)
  }

  /**
   * The start and end offsets `makeUrl` works with, or the error it stops
   * with before building anything: an override that does not parse, or an
   * end beyond a nonzero start.
   */
  function ResolveWindow(c: Collector, startOffset: string, endOffset: string, parse: DurationParser)
    : (r: Result<(Int64, Int64), Error>)
    ensures r.Ok? ==> r.value.0 == 0 || r.value.1 <= r.value.0
  {
    var s := GetDuration(startOffset, c.startOffset, parse);
    var e := GetDuration(endOffset, c.endOffset, parse);
    if s.Err? then Err(s.error)
    else if e.Err? then Err(e.error)
    else if s.value != 0 && e.value > s.value then Err(EndAfterStart(e.value, s.value))
    else Ok((s.value, e.value))
  }

  /**
   * The URL `makeUrl` builds when the filter map is visited in the order
   * `keys`, or the error it reports.
   */
  function UrlFor(
    c: Collector, path: string, metricNames: seq<string>, filters: Filters, keys: seq<string>,
    startOffset: string, endOffset: string, granularity: string, realTime: Option<bool>,
    nowStart: int, nowEnd: int, parse: DurationParser): Result<string, Error>
    requires forall i :: 0 <= i < |keys| ==> keys[i] in filters
  {
    match ResolveWindow(c, startOffset, endOffset, parse)
    case Err(err) => Err(err)
    case Ok((s, e)) =>
      var params := QueryParams(c, metricNames, filters, keys, s, e, granularity, nowStart, nowEnd);
      Ok(Assemble(c.url, Endpoint(UseRealTime(s, realTime, c.realTime)), path, params))
  }

  /** What `makeUrl` yields whatever the order of the filter keys: the window's error, or a URL under the chosen endpoint. */
  lemma UrlForWindow(
    c: Collector, path: string, metricNames: seq<string>, filters: Filters, keys: seq<string>,
    startOffset: string, endOffset: string, granularity: string, realTime: Option<bool>,
    nowStart: int, nowEnd: int, parse: DurationParser)
    requires forall i :: 0 <= i < |keys| ==> keys[i] in filters
    ensures var r := UrlFor(c, path, metricNames, filters, keys, startOffset, endOffset, granularity, realTime, nowStart, nowEnd, parse);
      var w := ResolveWindow(c, startOffset, endOffset, parse);
      && (w.Err? ==> r == Err(w.error))
      && (w.Ok? ==> r.Ok? && StartsWith(r.value, c.url + "/" + Endpoint(UseRealTime(w.value.0, realTime, c.realTime)) + "/" + path))
  { }

  /** Some order in which a Go `range` over the map may visit its keys. */
  method KeyOrder(filters: Filters) returns (order: seq<string>)
    ensures IsKeyOrder(order, filters)
  {
    order := [];
    var remaining := filters.Keys;
    while remaining != {}
      invariant remaining !! set k | k in order
      invariant forall k :: k in filters <==> k in order || k in remaining
      invariant forall i, j :: 0 <= i < j < |order| ==> order[i] != order[j]
      decreases |remaining|
    {
      var k :| k in remaining;
      order := order + [k];
      remaining := remaining - {k};
    }
  }

  /** The nested loop over the filter map: every value of every key, key by key. */
  method AppendFilters(params: seq<string>, order: seq<string>, filters: Filters) returns (out: seq<string>)
    requires forall i :: 0 <= i < |order| ==> order[i] in filters
    ensures out == params + FilterParams(order, filters)
  {
    out := params;
    var i := 0;
    while i < |order|
      invariant 0 <= i <= |order|
      invariant out == params + FilterParams(order[..i], filters)
    {
      var k := order[i];
      var values := filters[k];
      ghost var before := out;
      var j := 0;
      while j < |values|
        invariant 0 <= j <= |values|
        invariant out == before + PairParams(k, values[..j])
      {
        out := out + [k + "=" + values[j]];
        j := j + 1;
      }
      assert values[..j] == values;
      assert order[..i + 1][..i] == order[..i];
      i := i + 1;
    }
    assert order[..i] == order;
  }

  /** The loop over the metric names, entered only for more than one name. */
  method AppendMetrics(params: seq<string>, metricNames: seq<string>) returns (out: seq<string>)
    ensures out == params + MetricParams(metricNames)
  {
    out := params;
    if |metricNames| > 1 {
      var n := 0;
      while n < |metricNames|
        invariant 0 <= n <= |metricNames|
        invariant out == params + seq(n, m requires 0 <= m < n => "metric=" + metricNames[m])
      {
        out := out + ["metric=" + metricNames[n]];
        n := n + 1;
      }
    }
  }

  /**
   * `makeUrl`: resolves the offsets, checks the window, and grows the
   * parameter list group by group. The filter map is visited in an order the
   * method does not control; `keys` reports the order it took.
   */
  method MakeUrl(
    c: Collector, path: string, metricNames: seq<string>, filters: Filters,
    startOffset: string, endOffset: string, granularity: string, realTime: Option<bool>,
    nowStart: int, nowEnd: int, parse: DurationParser)
    returns (r: Result<string, Error>, ghost keys: seq<string>)
    ensures IsKeyOrder(keys, filters)
    ensures r == UrlFor(c, path, metricNames, filters, keys, startOffset, endOffset, granularity, realTime, nowStart, nowEnd, parse)
    ensures var w := ResolveWindow(c, startOffset, endOffset, parse);
      && (w.Err? ==> r == Err(w.error))
      && (w.Ok? ==> r.Ok? && StartsWith(r.value, c.url + "/" + Endpoint(UseRealTime(w.value.0, realTime, c.realTime)) + "/" + path))
  {
    var order := KeyOrder(filters);
    keys := order;
    UrlForWindow(c, path, metricNames, filters, keys, startOffset, endOffset, granularity, realTime, nowStart, nowEnd, parse);
    var params: seq<string> := [];
    var start := GetDuration(startOffset, c.startOffset, parse);
    if start.Err? {
      return Err(start.error), keys;
    }
    var end := GetDuration(endOffset, c.endOffset, parse);
    if end.Err? {
      return Err(end.error), keys;
    }
    if start.value != 0 {
      if end.value > start.value {
        return Err(EndAfterStart(end.value, start.value)), keys;
      }
      params := AddTimeRange(params, start.value, end.value, nowStart, nowEnd);
    }
    params := AddGranularity(params, granularity, c.granularity);
    var endpoint := "real-time-metrics";
    if !UseRealTime(start.value, realTime, c.realTime) {
      endpoint := "metrics";
    }
    params := AppendFilters(params, order, filters);
    params := AppendMetrics(params, metricNames);
    assert params == QueryParams(c, metricNames, filters, keys, start.value, end.value, granularity, nowStart, nowEnd);
    if |params| == 0 {
      r := Ok(c.url + "/" + endpoint + "/" + path);
    } else {
      r := Ok(c.url + "/" + endpoint + "/" + path + "?" + Join(params, "&"));
    }
  }

  // ---------------------------------------------------------------- the Collect wrappers

  /** The request a URL leads to: the transport and the JSON decoder are the parameter `fetch`. */
  function Fetched<T>(url: Result<string, Error>, fetch: string -> Result<T, Error>): (r: Result<T, Error>)
    ensures url.Err? ==> r == Err(url.error)
    ensures url.Ok? ==> r == fetch(url.value)
  {
    match url
    case Err(e) => Err(e)
    case Ok(u) => fetch(u)
  }

  /** `CollectMetrics`: the path of the names and no dimension; the names are passed on. */
  method CollectMetrics(
    c: Collector, metricNames: seq<string>, filters: Filters,
    startOffset: string, endOffset: string, granularity: string, realTime: Option<bool>,
    nowStart: int, nowEnd: int, parse: DurationParser, fetch: string -> Result<MetricData, Error>)
    returns (r: Result<MetricData, Error>, ghost keys: seq<string>)
    ensures IsKeyOrder(keys, filters)
    ensures r == Fetched(UrlFor(c, MakePath(metricNames, "", ""), metricNames, filters, keys,
      startOffset, endOffset, granularity, realTime, nowStart, nowEnd, parse), fetch)
    ensures ResolveWindow(c, startOffset, endOffset, parse).Err? ==> r == Err(ResolveWindow(c, startOffset, endOffset, parse).error)
  {
    var url;
    url, keys := MakeUrl(c, MakePath(metricNames, "", ""), metricNames, filters,
      startOffset, endOffset, granularity, realTime, nowStart, nowEnd, parse);
    if url.Err? {
      return Err(url.error), keys;
    }
    r := fetch(url.value);
  }

  /** `CollectMetricGroup`: the group's path and no names, so no `metric=` parameter comes from metric names. */
  method CollectMetricGroup(
    c: Collector, metricGroup: string, filters: Filters,
    startOffset: string, endOffset: string, granularity: string, realTime: Option<bool>,
    nowStart: int, nowEnd: int, parse: DurationParser, fetch: string -> Result<MetricData, Error>)
    returns (r: Result<MetricData, Error>, ghost keys: seq<string>)
    ensures IsKeyOrder(keys, filters)
    ensures r == Fetched(UrlFor(c, MakePath([], metricGroup, ""), [], filters, keys,
      startOffset, endOffset, granularity, realTime, nowStart, nowEnd, parse), fetch)
    ensures ResolveWindow(c, startOffset, endOffset, parse).Err? ==> r == Err(ResolveWindow(c, startOffset, endOffset, parse).error)
  {
    var url;
    url, keys := MakeUrl(c, MakePath([], metricGroup, ""), [], filters,
      startOffset, endOffset, granularity, realTime, nowStart, nowEnd, parse);
    if url.Err? {
      return Err(url.error), keys;
    }
    r := fetch(url.value);
  }

  /** `CollectMetricsByDimension`: the names' path grouped by the dimension; the names are passed on. */
  method CollectMetricsByDimension(
    c: Collector, metricNames: seq<string>, dimension: string, filters: Filters,
    startOffset: string, endOffset: string, granularity: string, realTime: Option<bool>,
    nowStart: int, nowEnd: int, parse: DurationParser, fetch: string -> Result<DimMetricData, Error>)
    returns (r: Result<DimMetricData, Error>, ghost keys: seq<string>)
    ensures IsKeyOrder(keys, filters)
    ensures r == Fetched(UrlFor(c, MakePath(metricNames, "", dimension), metricNames, filters, keys,
      startOffset, endOffset, granularity, realTime, nowStart, nowEnd, parse), fetch)
    ensures ResolveWindow(c, startOffset, endOffset, parse).Err? ==> r == Err(ResolveWindow(c, startOffset, endOffset, parse).error)
  {
    var url;
    url, keys := MakeUrl(c, MakePath(metricNames, "", dimension), metricNames, filters,
      startOffset, endOffset, granularity, realTime, nowStart, nowEnd, parse);
    if url.Err? {
      return Err(url.error), keys;
    }
    r := fetch(url.value);
  }

  /** `CollectMetricGroupByDimension`: the group's path grouped by the dimension, and no names. */
  method CollectMetricGroupByDimension(
    c: Collector, metricGroup: string, dimension: string, filters: Filters,
    startOffset: string, endOffset: string, granularity: string, realTime: Option<bool>,
    nowStart: int, nowEnd: int, parse: DurationParser, fetch: string -> Result<DimMetricData, Error>)
    returns (r: Result<DimMetricData, Error>, ghost keys: seq<string>)
    ensures IsKeyOrder(keys, filters)
    ensures r == Fetched(UrlFor(c, MakePath([], metricGroup, dimension), [], filters, keys,
      startOffset, endOffset, granularity, realTime, nowStart, nowEnd, parse), fetch)
    ensures ResolveWindow(c, startOffset, endOffset, parse).Err? ==> r == Err(ResolveWindow(c, startOffset, endOffset, parse).error)
  {
    var url;
    url, keys := MakeUrl(c, MakePath([], metricGroup, dimension), [], filters,
      startOffset, endOffset, granularity, realTime, nowStart, nowEnd, parse);
    if url.Err? {
      return Err(url.error), keys;
    }
    r := fetch(url.value);
  }

  // ---------------------------------------------------------------- properties

  /** `makeUrl` fails exactly on an unparsable offset or an end beyond a nonzero start. */
  lemma UrlErrors(
    c: Collector, path: string, metricNames: seq<string>, filters: Filters, keys: seq<string>,
    startOffset: string, endOffset: string, granularity: string, realTime: Option<bool>,
    nowStart: int, nowEnd: int, parse: DurationParser)
    requires forall i :: 0 <= i < |keys| ==> keys[i] in filters
    ensures var r := UrlFor(c, path, metricNames, filters, keys, startOffset, endOffset, granularity, realTime, nowStart, nowEnd, parse);
      var s := GetDuration(startOffset, c.startOffset, parse);
      var e := GetDuration(endOffset, c.endOffset, parse);
      && (r.Err? <==> s.Err? || e.Err? || (s.value != 0 && e.value > s.value))
      && (s.Err? ==> r == Err(InvalidDuration(startOffset)))
      && (s.Ok? && e.Err? ==> r == Err(InvalidDuration(endOffset)))
      && (s.Ok? && e.Ok? && s.value != 0 && e.value > s.value ==> r == Err(EndAfterStart(e.value, s.value)))
  { }

  /** With a zero start there is no time range, whatever the end offset. */
  lemma NoTimeRangeFromZeroStart(
    c: Collector, metricNames: seq<string>, filters: Filters, keys: seq<string>,
    end: Int64, granularity: string, nowStart: int, nowEnd: int)
    requires forall i :: 0 <= i < |keys| ==> keys[i] in filters
    ensures QueryParams(c, metricNames, filters, keys, 0, end, granularity, nowStart, nowEnd)
      == AddGranularity([], granularity, c.granularity) + FilterParams(keys, filters) + MetricParams(metricNames)
  { }

  /**
   * With a nonzero start the query opens with `start_epoch=` then
   * `end_epoch=`, and when the clock is read in order the start epoch is not
   * after the end epoch.
   */
  lemma TimeRangeLeads(
    c: Collector, metricNames: seq<string>, filters: Filters, keys: seq<string>,
    start: Int64, end: Int64, granularity: string, nowStart: int, nowEnd: int)
    requires forall i :: 0 <= i < |keys| ==> keys[i] in filters
    requires start != 0 && end <= start && nowStart <= nowEnd
    ensures var ps := QueryParams(c, metricNames, filters, keys, start, end, granularity, nowStart, nowEnd);
      && |ps| >= 2
      && ps[0] == "start_epoch=" + IntToString(EpochSeconds(nowStart, start))
      && ps[1] == "end_epoch=" + IntToString(EpochSeconds(nowEnd, end))
      && EpochSeconds(nowStart, start) <= EpochSeconds(nowEnd, end)
  {
    EpochSecondsOrdered(nowStart, nowEnd, start, end);
  }

  /** The query string splits back on `&` into the parameters when no parameter holds a `&`. */
  lemma QueryStringSplits(base: string, endpoint: string, path: string, params: seq<string>)
    requires params != []
    requires forall i :: 0 <= i < |params| ==> '&' !in params[i]
    ensures var head := base + "/" + endpoint + "/" + path + "?";
      var url := Assemble(base, endpoint, path, params);
      && StartsWith(url, head)
      && Split(url[|head|..], '&') == params
  {
    var head := base + "/" + endpoint + "/" + path + "?";
    var url := Assemble(base, endpoint, path, params);
    assert url == head + Join(params, "&");
    PrefixOfConcat(head, Join(params, "&"));
    assert url[|head|..] == Join(params, "&");
    assert "&" == ['&'];
    SplitJoin(params, '&');
  }

  lemma {:induction false} FilterParamsAppend(a: seq<string>, b: seq<string>, filters: Filters)
    requires forall i :: 0 <= i < |a| ==> a[i] in filters
    requires forall i :: 0 <= i < |b| ==> b[i] in filters
    ensures forall i :: 0 <= i < |a + b| ==> (a + b)[i] in filters
    ensures FilterParams(a + b, filters) == FilterParams(a, filters) + FilterParams(b, filters)
  {
    assert forall i :: 0 <= i < |a + b| ==> (a + b)[i] in filters by {
      forall i | 0 <= i < |a + b| ensures (a + b)[i] in filters {
        if i >= |a| { assert (a + b)[i] == b[i - |a|]; }
      }
    }
    if |b| == 0 {
      assert a + b == a;
    } else {
      var b' := b[..|b| - 1];
      assert (a + b)[..|a + b| - 1] == a + b';
      FilterParamsAppend(a, b', filters);
      var last := PairParams(b[|b| - 1], filters[b[|b| - 1]]);
      calc {
        FilterParams(a + b, filters);
        FilterParams(a + b', filters) + last;
        (FilterParams(a, filters) + FilterParams(b', filters)) + last;
        FilterParams(a, filters) + (FilterParams(b', filters) + last);
      }
    }
  }

  /** The filter parameters depend on the map only and not on the order its keys are visited in. */
  lemma {:induction false} FilterParamsOrderFree(keys1: seq<string>, keys2: seq<string>, filters: Filters)
    requires IsKeyOrder(keys1, filters) && IsKeyOrder(keys2, filters)
    ensures multiset(FilterParams(keys1, filters)) == multiset(FilterParams(keys2, filters))
  {
    SameKeysSameParams(keys1, keys2, filters);
  }

  lemma {:induction false} SameKeysSameParams(keys1: seq<string>, keys2: seq<string>, filters: Filters)
    requires forall i, j :: 0 <= i < j < |keys1| ==> keys1[i] != keys1[j]
    requires forall i, j :: 0 <= i < j < |keys2| ==> keys2[i] != keys2[j]
    requires forall k :: k in keys1 <==> k in keys2
    requires forall k :: k in keys1 ==> k in filters
    ensures multiset(FilterParams(keys1, filters)) == multiset(FilterParams(keys2, filters))
    decreases |keys1|
  {
    if |keys1| == 0 {
      if keys2 != [] {
        HeadIsMember(keys2);
        assert false;
      }
    } else {
      var n := |keys1|;
      var x := keys1[n - 1];
      assert x in keys1;
      var p :| 0 <= p < |keys2| && keys2[p] == x;
      var rest2 := Without(keys2, p);
      DropMatchingKey(keys1, keys2, p);
      SameKeysSameParams(keys1[..n - 1], rest2, filters);
      ParamsWithoutKey(keys2, p, filters);
    }
  }

  lemma HeadIsMember<T>(s: seq<T>)
    requires s != []
    ensures s[0] in s
  { }

  /** `s` with its element at `p` taken out. */
  function Without<T>(s: seq<T>, p: nat): (r: seq<T>)
    requires p < |s|
    ensures |r| == |s| - 1
    ensures forall i :: 0 <= i < |r| ==> r[i] == s[if i < p then i else i + 1]
  {
    s[..p] + s[p + 1..]
  }

  /** Removing the last key of one order and the same key from the other keeps them orders of one key set. */
  lemma DropMatchingKey(keys1: seq<string>, keys2: seq<string>, p: nat)
    requires forall i, j :: 0 <= i < j < |keys1| ==> keys1[i] != keys1[j]
    requires forall i, j :: 0 <= i < j < |keys2| ==> keys2[i] != keys2[j]
    requires forall k :: k in keys1 <==> k in keys2
    requires |keys1| > 0 && p < |keys2| && keys2[p] == keys1[|keys1| - 1]
    ensures var rest1, rest2 := keys1[..|keys1| - 1], Without(keys2, p);
      && (forall k :: k in rest1 <==> k in rest2)
      && (forall i, j :: 0 <= i < j < |rest1| ==> rest1[i] != rest1[j])
      && (forall i, j :: 0 <= i < j < |rest2| ==> rest2[i] != rest2[j])
  {
    var n := |keys1|;
    var x := keys1[n - 1];
    var rest1, rest2 := keys1[..n - 1], Without(keys2, p);
    forall k ensures k in rest1 <==> k in rest2 {
      if k in rest1 {
        var i :| 0 <= i < n - 1 && rest1[i] == k;
        assert keys1[i] == k && k != x;
        assert k in keys2;
        var i2 :| 0 <= i2 < |keys2| && keys2[i2] == k;
        assert i2 != p;
        if i2 < p { assert rest2[i2] == k; } else { assert rest2[i2 - 1] == k; }
      }
      if k in rest2 {
        var i :| 0 <= i < |rest2| && rest2[i] == k;
        var i2 := if i < p then i else i + 1;
        assert keys2[i2] == k && k != x;
        assert k in keys1;
        var i1 :| 0 <= i1 < n && keys1[i1] == k;
        assert i1 < n - 1 && rest1[i1] == k;
      }
    }
    forall i, j | 0 <= i < j < |rest2| ensures rest2[i] != rest2[j] {
      var i2 := if i < p then i else i + 1;
      var j2 := if j < p then j else j + 1;
      assert rest2[i] == keys2[i2] && rest2[j] == keys2[j2];
    }
  }

  /** Taking one key out of an order takes exactly that key's parameters out of the multiset. */
  lemma ParamsWithoutKey(keys: seq<string>, p: nat, filters: Filters)
    requires p < |keys|
    requires forall i :: 0 <= i < |keys| ==> keys[i] in filters
    ensures forall i :: 0 <= i < |Without(keys, p)| ==> (Without(keys, p))[i] in filters
    ensures multiset(FilterParams(keys, filters))
      == multiset(FilterParams(Without(keys, p), filters)) + multiset(PairParams(keys[p], filters[keys[p]]))
  {
    var x, before, after := keys[p], keys[..p], keys[p + 1..];
    assert keys == before + [x] + after;
    assert FilterParams([x], filters) == PairParams(x, filters[x]) by {
      assert [x][..0] == [];
    }
    FilterParamsAppend(before, [x], filters);
    FilterParamsAppend(before + [x], after, filters);
    FilterParamsAppend(before, after, filters);
  }

  /** A parameter comes from the filters exactly when it is `key=value` for a listed key and one of its values. */
  lemma {:induction false} FilterParamsMembers(keys: seq<string>, filters: Filters, p: string)
    requires forall i :: 0 <= i < |keys| ==> keys[i] in filters
    ensures p in FilterParams(keys, filters) <==>
      exists i, j :: 0 <= i < |keys| && 0 <= j < |filters[keys[i]]| && p == keys[i] + "=" + filters[keys[i]][j]
  {
    if |keys| > 0 {
      var n := |keys|;
      FilterParamsMembers(keys[..n - 1], filters, p);
      var last := PairParams(keys[n - 1], filters[keys[n - 1]]);
      if p in FilterParams(keys, filters) {
        if p in last {
          var j :| 0 <= j < |last| && last[j] == p;
          assert p == keys[n - 1] + "=" + filters[keys[n - 1]][j];
        } else {
          var i, j :| 0 <= i < n - 1 && 0 <= j < |filters[keys[..n - 1][i]]| && p == keys[..n - 1][i] + "=" + filters[keys[..n - 1][i]][j];
          assert keys[..n - 1][i] == keys[i];
        }
      }
      if exists i, j :: 0 <= i < |keys| && 0 <= j < |filters[keys[i]]| && p == keys[i] + "=" + filters[keys[i]][j] {
        var i, j :| 0 <= i < |keys| && 0 <= j < |filters[keys[i]]| && p == keys[i] + "=" + filters[keys[i]][j];
        if i == n - 1 {
          assert last[j] == p;
        } else {
          assert keys[..n - 1][i] == keys[i];
        }
      }
    }
  }

  /** Over a full key order: one `key=value` parameter for every (key, value) pair of the map, and nothing else. */
  lemma FilterParamsCoverMap(keys: seq<string>, filters: Filters, p: string)
    requires IsKeyOrder(keys, filters)
    ensures p in FilterParams(keys, filters) <==>
      exists k, j :: k in filters && 0 <= j < |filters[k]| && p == k + "=" + filters[k][j]
  {
    FilterParamsMembers(keys, filters, p);
    if exists k, j :: k in filters && 0 <= j < |filters[k]| && p == k + "=" + filters[k][j] {
      var k, j :| k in filters && 0 <= j < |filters[k]| && p == k + "=" + filters[k][j];
      assert k in keys;
      var i :| 0 <= i < |keys| && keys[i] == k;
    }
  }
}
